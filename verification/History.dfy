/** What must have happened: a running row was probed, and every row is what its request asked for. */
module History {
  import opened Lifecycle
  import opened Protocol
  import opened Invariant
  import opened Locality
  import opened Outcomes
  import opened Ledger
  import RoutesCode

  /** The run is an extension of one of its prefixes. */
  lemma Prefixes(c: Consts, s0: State, steps: seq<Step>)
    requires steps != []
    ensures Run(c, s0, steps) == Next(c, Run(c, s0, steps[..|steps| - 1]), steps[|steps| - 1])
  {
    assert steps == steps[..|steps| - 1] + [steps[|steps| - 1]];
    RunSnoc(c, s0, steps[..|steps| - 1], steps[|steps| - 1]);
  }

  lemma InvAt(c: Consts, s0: State, steps: seq<Step>)
    requires Init(s0)
    ensures Inv(Run(c, s0, steps))
  {
    InitHolds(s0);
    RunKeeps(c, s0, steps);
  }

  // ---- Running sandboxes were probed ----

  /** The only way to the promotion is a probe that succeeded on a container that was up. */
  lemma EntersPromote(c: Consts, s: State, step: Step, a: nat)
    requires Inv(s) && a in Next(c, s, step).actors
    requires var x := Next(c, s, step).actors[a]; x.Start? && x.pc.Promote? && !(a in s.actors && s.actors[a] == x)
    ensures
      var x := Next(c, s, step).actors[a];
      && step == Act(a, Ok) && a in s.actors && s.actors[a] == Start(x.id, x.try, Probe(x.pc.port))
      && Get(s, x.id).box.Some? && Get(s, x.id).box.value.up
  {
    hide Next, Inv;
    ActorCameFrom(c, s, step, a);
    OwnCell(c, s, a, step.choice);
    var x := s.actors[a];
    ToPromote(c, s.now, Get(s, x.id), x.try, x.pc, step.choice);
  }

  lemma ToPromote(c: Consts, now: Time, cell: Cell, try: nat, pc: StartPc, choice: Choice)
    ensures
      var out := StepStart(c, now, cell, try, pc, choice);
      out.pc.Promote? && !pc.Finish? ==> choice.Ok? && pc == Probe(out.pc.port) && cell.box.Some? && cell.box.value.up
  {
  }

  /** Step `i` of the run was the successful probe of `a`, a run of `start_sandbox` for `id`. */
  ghost predicate ProbedAt(c: Consts, s0: State, steps: seq<Step>, i: nat, a: nat, id: Id, port: nat) {
    && i < |steps| && steps[i] == Act(a, Ok)
    && var u := Run(c, s0, steps[..i]);
       && a in u.actors && IsStart(u.actors[a], id) && u.actors[a].pc == Probe(port)
       && Get(u, id).box.Some? && Get(u, id).box.value.up
  }

  lemma {:induction false} PromoteWasProbed(c: Consts, s0: State, steps: seq<Step>, a: nat) returns (i: nat)
    requires Init(s0) && a in Run(c, s0, steps).actors
    requires var x := Run(c, s0, steps).actors[a]; x.Start? && x.pc.Promote?
    ensures var x := Run(c, s0, steps).actors[a]; ProbedAt(c, s0, steps, i, a, x.id, x.pc.port)
    decreases |steps|
  {
    hide Next, Init, Inv, Get;
    if steps == [] {
      assert false by { NobodyAtFirst(c, s0); }
    } else {
      var before := steps[..|steps| - 1];
      var s := Run(c, s0, before);
      Prefixes(c, s0, steps);
      InvAt(c, s0, before);
      var x := Run(c, s0, steps).actors[a];
      if a in s.actors && s.actors[a] == x {
        i := PromoteWasProbed(c, s0, before, a);
        assert steps[..i] == before[..i];
      } else {
        EntersPromote(c, s, steps[|steps| - 1], a);
        i := |before|;
      }
    }
  }

  lemma NobodyAtFirst(c: Consts, s0: State)
    requires Init(s0)
    ensures Run(c, s0, []).actors == map[]
  {
  }

  /** Over whole runs, in any regime: a row enters `Running` only by a run of its start job whose
      readiness probe has succeeded on a container that was up, and with the URL of that probe. */
  lemma RunningWasProbed(c: Consts, s0: State, steps: seq<Step>, step: Step, id: Id) returns (a: nat, port: nat, i: nat)
    requires Init(s0) && EntersRunning(Run(c, s0, steps), Next(c, Run(c, s0, steps), step), id)
    ensures ProbedAt(c, s0, steps, i, a, id, port)
    ensures Get(Next(c, Run(c, s0, steps), step), id).row.value.url == Some(port)
  {
    hide Next, Init, Inv, Run, ProbedAt;
    var s := Run(c, s0, steps);
    InvAt(c, s0, steps);
    if id !in s.cells {
      NewRowLedger(c, s, step, id);
    } else {
      KnownRow(c, s, step, id);
      RowLedger(c, s, step, id);
    }
    a := step.a;
    port := s.actors[a].pc.port;
    i := PromoteWasProbed(c, s0, steps, a);
  }

  lemma KnownRow(c: Consts, s: State, step: Step, id: Id)
    requires Inv(s) && id in s.cells && Get(Next(c, s, step), id).row.Some?
    ensures s.cells[id].row.Some?
  {
    StepKeeps(c, s, step);
  }

  // ---- Rows are what their request asked for ----

  /** An actor that was not there before, or has moved, on its way to an insert. */
  lemma EntersInsert(c: Consts, s: State, step: Step, a: nat)
    requires Inv(s) && a in Next(c, s, step).actors
    requires var x := Next(c, s, step).actors[a]; x.CreateInsert? && !(a in s.actors && s.actors[a] == x)
    ensures
      var x := Next(c, s, step).actors[a];
      && step == Act(a, Via(x.pool)) && a in s.actors && s.actors[a].CreateRoute? && s.actors[a].key == x.key
      && x.expiresAt == s.now + s.actors[a].ttl * SECOND
  {
    hide Next, Inv;
    ActorCameFrom(c, s, step, a);
    if a !in s.actors {
      NewCreates(c, s, step, a);
    } else {
      OwnCreates(c, s, a, step.choice);
    }
  }

  /** A request that is counted or routed has begun with its key and its TTL. */
  lemma EntersCount(c: Consts, s: State, step: Step, a: nat)
    requires Inv(s) && a in Next(c, s, step).actors
    requires
      var x := Next(c, s, step).actors[a];
      (x.CreateCount? || x.CreateRoute?) && !(a in s.actors && (s.actors[a].CreateCount? || s.actors[a].CreateRoute?))
    ensures
      var x := Next(c, s, step).actors[a];
      step == CreateBegin(x.key, x.ttl) && a == s.next
  {
    hide Next, Inv;
    ActorCameFrom(c, s, step, a);
    if a !in s.actors {
      NewCreates(c, s, step, a);
    } else {
      OwnCreates(c, s, a, step.choice);
    }
  }

  lemma KeepsRequest(c: Consts, s: State, step: Step, a: nat)
    requires Inv(s) && a in Next(c, s, step).actors && a in s.actors
    requires s.actors[a].CreateCount? || s.actors[a].CreateRoute?
    ensures
      var x := Next(c, s, step).actors[a];
      x.CreateCount? || x.CreateRoute? ==> x.key == s.actors[a].key && x.ttl == s.actors[a].ttl
  {
    hide Next, Inv;
    ActorCameFrom(c, s, step, a);
    if Next(c, s, step).actors[a] != s.actors[a] {
      OwnCreates(c, s, a, step.choice);
    }
  }

  /** A new handler of a create request has just begun. */
  lemma NewCreates(c: Consts, s: State, step: Step, a: nat)
    requires Inv(s) && a !in s.actors && a in Next(c, s, step).actors
    ensures
      var x := Next(c, s, step).actors[a];
      IsCreate(x) ==> x.CreateCount? && step == CreateBegin(x.key, x.ttl) && a == s.next
  {
    hide StepActor, StepCrash, StartInFlight, StopInFlight, CellsOk, IndexOk, ActorOk, Guarantee, DataKept;
    if step.Act? && step.a in s.actors {
      ActStep(c, s, step.a, step.choice);
    }
    if step.Crash? && step.a in s.actors {
      CrashStep(c, s, step.a, step.redeliver);
    }
  }

  lemma OwnCreates(c: Consts, s: State, a: nat, choice: Choice)
    requires a in s.actors
    ensures
      var s' := Next(c, s, Act(a, choice));
      a in s'.actors ==>
        var x := s'.actors[a];
        && (x.CreateCount? ==> s.actors[a] == x)
        && (x.CreateRoute? ==> s.actors[a] == x || s.actors[a] == CreateCount(x.key, x.ttl))
        && (x.CreateInsert? ==>
              || s.actors[a] == x
              || (choice == Via(x.pool) && s.actors[a].CreateRoute? && s.actors[a].key == x.key
                  && x.expiresAt == s.now + s.actors[a].ttl * SECOND))
  {
    hide Next;
    if IsCreate(s.actors[a]) {
      RoutesCode.CreateNext(c, s, a, choice);
      CreateGoes(c, s, s.actors[a], choice);
    } else {
      OthersNeverCreate(c, s, a, choice);
    }
  }

  lemma CreateGoes(c: Consts, s: State, x: Actor, choice: Choice)
    requires IsCreate(x)
    ensures
      var next := StepCreate(c, s.cells, s.keys, s.now, x, choice).next;
      next.Some? ==>
        var y := next.value;
        && (y.CreateCount? ==> x == y)
        && (y.CreateRoute? ==> x == y || x == CreateCount(y.key, y.ttl))
        && (y.CreateInsert? ==>
              || x == y
              || (choice == Via(y.pool) && x.CreateRoute? && x.key == y.key && y.expiresAt == s.now + x.ttl * SECOND))
  {
    hide ActiveIds;
  }

  lemma OthersNeverCreate(c: Consts, s: State, a: nat, choice: Choice)
    requires a in s.actors && !IsCreate(s.actors[a])
    ensures
      var s' := Next(c, s, Act(a, choice));
      a in s'.actors ==> !IsCreate(s'.actors[a])
  {
    hide Next;
    if IsDelete(s.actors[a]) {
      DeleteNeverCreates(c, s, a, choice);
    } else {
      JobNeverCreates(c, s, a, choice);
    }
  }

  lemma DeleteNeverCreates(c: Consts, s: State, a: nat, choice: Choice)
    requires a in s.actors && IsDelete(s.actors[a])
    ensures
      var s' := Next(c, s, Act(a, choice));
      a in s'.actors ==> !IsCreate(s'.actors[a])
  {
    hide StepDelete;
    DeleteStays(Get(s, s.actors[a].id), s.actors[a], choice);
  }

  lemma JobNeverCreates(c: Consts, s: State, a: nat, choice: Choice)
    requires a in s.actors && !IsDelete(s.actors[a]) && !IsCreate(s.actors[a])
    ensures
      var s' := Next(c, s, Act(a, choice));
      a in s'.actors ==> !IsCreate(s'.actors[a])
  {
    hide StepStart, StepStop, StepSweep;
  }

  /** Step `j` of the run was the arrival of the request `a`. */
  ghost predicate BegunAt(c: Consts, s0: State, steps: seq<Step>, j: nat, a: nat, key: Option<Key>, ttl: nat) {
    j < |steps| && steps[j] == CreateBegin(key, ttl) && Run(c, s0, steps[..j]).next == a
  }

  /** Step `i` of the run was the routing answer to the request `a`, given at `now`. */
  ghost predicate RoutedAt(c: Consts, s0: State, steps: seq<Step>, i: nat, a: nat,
                           key: Option<Key>, ttl: nat, pool: Pool, now: Time) {
    && i < |steps| && steps[i] == Act(a, Via(pool))
    && var u := Run(c, s0, steps[..i]);
       u.now == now && a in u.actors && u.actors[a] == CreateRoute(key, ttl)
  }

  lemma {:induction false} RequestHasBegun(c: Consts, s0: State, steps: seq<Step>, a: nat) returns (j: nat)
    requires Init(s0) && a in Run(c, s0, steps).actors
    requires var x := Run(c, s0, steps).actors[a]; x.CreateCount? || x.CreateRoute?
    ensures var x := Run(c, s0, steps).actors[a]; BegunAt(c, s0, steps, j, a, x.key, x.ttl)
    decreases |steps|
  {
    hide Next, Init, Inv;
    if steps == [] {
      assert false by { NobodyAtFirst(c, s0); }
    } else {
      var before := steps[..|steps| - 1];
      var s := Run(c, s0, before);
      Prefixes(c, s0, steps);
      InvAt(c, s0, before);
      if a in s.actors && (s.actors[a].CreateCount? || s.actors[a].CreateRoute?) {
        KeepsRequest(c, s, steps[|steps| - 1], a);
        j := RequestHasBegun(c, s0, before, a);
        assert steps[..j] == before[..j];
      } else {
        EntersCount(c, s, steps[|steps| - 1], a);
        j := |before|;
      }
    }
  }

  lemma {:induction false} InsertWasRouted(c: Consts, s0: State, steps: seq<Step>, a: nat)
    returns (i: nat, ttl: nat, now: Time)
    requires Init(s0) && a in Run(c, s0, steps).actors && Run(c, s0, steps).actors[a].CreateInsert?
    ensures
      var x := Run(c, s0, steps).actors[a];
      RoutedAt(c, s0, steps, i, a, x.key, ttl, x.pool, now) && x.expiresAt == now + ttl * SECOND
    decreases |steps|
  {
    hide Next, Init, Inv;
    if steps == [] {
      assert false by { NobodyAtFirst(c, s0); }
    } else {
      var before := steps[..|steps| - 1];
      var s := Run(c, s0, before);
      Prefixes(c, s0, steps);
      InvAt(c, s0, before);
      if a in s.actors && s.actors[a] == Run(c, s0, steps).actors[a] {
        i, ttl, now := InsertWasRouted(c, s0, before, a);
        assert steps[..i] == before[..i];
      } else {
        EntersInsert(c, s, steps[|steps| - 1], a);
        i, ttl, now := |before|, s.actors[a].ttl, s.now;
      }
    }
  }

  /** Over whole runs, in any regime: every row belongs to a request. It carries that request's key, it
      expires as many seconds after the routing of that request as the request's TTL says, and its pool
      is the routing answer. */
  lemma {:induction false} RowsAreAsRequested(c: Consts, s0: State, steps: seq<Step>, id: Id)
    returns (a: nat, key: Option<Key>, ttl: nat, j: nat, i: nat, now: Time)
    requires Init(s0) && id in Run(c, s0, steps).cells && Get(Run(c, s0, steps), id).row.Some?
    ensures
      var row := Get(Run(c, s0, steps), id).row.value;
      && j < i && BegunAt(c, s0, steps, j, a, key, ttl) && RoutedAt(c, s0, steps, i, a, key, ttl, row.pool, now)
      && row.key == key && row.expiresAt == now + ttl * SECOND
    decreases |steps|
  {
    hide Next, Init, Inv;
    if steps == [] {
      assert false by { NoRowsAtFirst(c, s0, id); }
    } else {
      var before, step := steps[..|steps| - 1], steps[|steps| - 1];
      var s := Run(c, s0, before);
      Prefixes(c, s0, steps);
      InvAt(c, s0, before);
      if id in s.cells {
        KnownRow(c, s, step, id);
        KeptColumns(c, s, step, id);
        a, key, ttl, j, i, now := RowsAreAsRequested(c, s0, before, id);
        assert steps[..i] == before[..i] && steps[..j] == before[..j];
      } else {
        NewRowLedger(c, s, step, id);
        a := step.a;
        key := s.actors[a].key;
        i, ttl, now := InsertWasRouted(c, s0, before, a);
        assert steps[..i] == before[..i];
        j := RequestHasBegun(c, s0, before[..i], a);
        assert before[..i][..j] == steps[..j];
      }
    }
  }

  lemma KeptColumns(c: Consts, s: State, step: Step, id: Id)
    requires Inv(s) && id in s.cells && s.cells[id].row.Some?
    ensures
      var row := Get(Next(c, s, step), id).row;
      && row.Some? && row.value.key == s.cells[id].row.value.key
      && row.value.expiresAt == s.cells[id].row.value.expiresAt && row.value.pool == s.cells[id].row.value.pool
  {
    StepKeeps(c, s, step);
  }

  lemma NoRowsAtFirst(c: Consts, s0: State, id: Id)
    requires Init(s0)
    ensures Get(Run(c, s0, []), id).row.None?
  {
  }
}
