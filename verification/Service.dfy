/** The handlers as the programs they are: they read and write the table, the containers and the
    queue step by step, and at every `await` the rest of the system may do whatever it likes. Each
    handler is proved to take exactly the steps of its actor in the protocol. */
module ServiceCode {
  import opened Lifecycle
  import opened Protocol
  import opened Locality

  /** What the environment decides: which steps others take while this handler awaits for the k-th
      time, and how its k-th await ends. */
  datatype Env = Env(others: nat -> seq<Step>, choice: nat -> Choice)

  /** The step leaves the actor `a` alone. */
  predicate Avoids(step: Step, a: nat) {
    (step.Act? || step.Crash?) ==> step.a != a
  }

  ghost predicate EnvAvoids(env: Env, a: nat) {
    forall k: nat, i: nat :: i < |env.others(k)| ==> Avoids(env.others(k)[i], a)
  }

  /** Nobody else does anything. */
  ghost predicate Undisturbed(env: Env) {
    forall k: nat :: env.others(k) == []
  }

  lemma OthersKeepMe(c: Consts, s: State, step: Step, a: nat)
    requires a in s.actors && a < s.next && Avoids(step, a)
    ensures
      var s' := Next(c, s, step);
      a in s'.actors && s'.actors[a] == s.actors[a] && a < s'.next && s.cells.Keys <= s'.cells.Keys
  {
    hide StepActor, StepCrash, BeginStart, BeginStop;
    match step {
      case Act(b, choice) =>
        if b in s.actors {
          MovesOnly(c, s, b, choice);
        }
      case Crash(b, redeliver) =>
        if b in s.actors {
          CrashesOnly(s, b, redeliver);
        }
      case PickStart(id) => PicksOnly(c, s, id);
      case PickStop(id) => PicksOnly(c, s, id);
      case _ =>
    }
  }

  ghost predicate OnlyMoves(s: State, s': State, b: nat) {
    && (forall a :: a in s.actors && a != b ==> a in s'.actors && s'.actors[a] == s.actors[a])
    && s'.next == s.next && s.cells.Keys <= s'.cells.Keys
  }

  lemma MovesOnly(c: Consts, s: State, b: nat, choice: Choice)
    requires b in s.actors
    ensures OnlyMoves(s, StepActor(c, s, b, s.actors[b], choice), b)
  {
    hide StepActor, OnlyMoves;
    if s.actors[b].Start? || s.actors[b].Stop? {
      JobsMoveOnly(c, s, b, choice);
    } else if s.actors[b].Sweep? {
      SweepsMoveOnly(c, s, b, choice);
    } else {
      RequestsMoveOnly(c, s, b, choice);
    }
  }

  lemma JobsMoveOnly(c: Consts, s: State, b: nat, choice: Choice)
    requires b in s.actors && (s.actors[b].Start? || s.actors[b].Stop?)
    ensures OnlyMoves(s, StepActor(c, s, b, s.actors[b], choice), b)
  {
    hide StepStart, StepStop, Noted;
  }

  lemma SweepsMoveOnly(c: Consts, s: State, b: nat, choice: Choice)
    requires b in s.actors && s.actors[b].Sweep?
    ensures OnlyMoves(s, StepActor(c, s, b, s.actors[b], choice), b)
  {
    hide StepSweep;
    SweepKeys(s, s.actors[b].vars, choice);
  }

  lemma RequestsMoveOnly(c: Consts, s: State, b: nat, choice: Choice)
    requires b in s.actors && (IsDelete(s.actors[b]) || IsCreate(s.actors[b]))
    ensures OnlyMoves(s, StepActor(c, s, b, s.actors[b], choice), b)
  {
    hide StepDelete, StepCreate;
    CreateKeys(c, s, s.actors[b], choice);
  }

  lemma SweepKeys(s: State, v: SweepVars, choice: Choice)
    ensures s.cells.Keys <= StepSweep(s.cells, s.now, v, choice).cells.Keys
  {
  }

  lemma CreateKeys(c: Consts, s: State, x: Actor, choice: Choice)
    ensures s.cells.Keys <= StepCreate(c, s.cells, s.keys, s.now, x, choice).cells.Keys
  {
    hide ActiveIds;
  }

  lemma CrashesOnly(s: State, b: nat, redeliver: bool)
    requires b in s.actors
    ensures
      var s' := StepCrash(s, b, s.actors[b], redeliver);
      && (forall a :: a in s.actors && a != b ==> a in s'.actors && s'.actors[a] == s.actors[a])
      && s'.next == s.next && s.cells.Keys <= s'.cells.Keys
  {
  }

  lemma PicksOnly(c: Consts, s: State, id: Id)
    ensures
      var s' := BeginStart(c, s, id);
      && (forall a :: a in s.actors && a < s.next ==> a in s'.actors && s'.actors[a] == s.actors[a])
      && s'.next >= s.next && s.cells.Keys <= s'.cells.Keys
    ensures
      var s' := BeginStop(c, s, id);
      && (forall a :: a in s.actors && a < s.next ==> a in s'.actors && s'.actors[a] == s.actors[a])
      && s'.next >= s.next && s.cells.Keys <= s'.cells.Keys
  {
    hide StartInFlight, StopInFlight;
  }

  lemma {:induction false} OthersKeepMeRun(c: Consts, s: State, steps: seq<Step>, a: nat)
    requires a in s.actors && a < s.next
    requires forall i :: 0 <= i < |steps| ==> Avoids(steps[i], a)
    ensures
      var s' := Run(c, s, steps);
      a in s'.actors && s'.actors[a] == s.actors[a] && a < s'.next && s.cells.Keys <= s'.cells.Keys
    decreases |steps|
  {
    hide Next;
    if steps == [] {
    } else {
      OthersKeepMe(c, s, steps[0], a);
      OthersKeepMeRun(c, Next(c, s, steps[0]), steps[1..], a);
    }
  }

  /** The columns a status write sets besides the status. */
  datatype Values = Values(status: Status, error: Option<Option<Reason>>, url: Option<nat>, attempts: Option<nat>)

  function Written(row: Row, values: Values): Row {
    row.(status := values.status,
         error := if values.error.Some? then values.error.value else row.error,
         url := if values.url.Some? then values.url else row.url,
         attempts := if values.attempts.Some? then values.attempts.value else row.attempts)
  }

  function RowsOf(cells: Cells): map<Id, Row> {
    map id | id in cells && cells[id].row.Some? :: cells[id].row.value
  }

  function BoxesOf(cells: Cells): map<Id, Box> {
    map id | id in cells && cells[id].box.Some? :: cells[id].box.value
  }

  function StartJobsOf(cells: Cells): map<Id, Job> {
    map id | id in cells && cells[id].startJob.Some? :: cells[id].startJob.value
  }

  function StopJobsOf(cells: Cells): map<Id, Job> {
    map id | id in cells && cells[id].stopJob.Some? :: cells[id].stopJob.value
  }

  function At<K(==), T>(m: map<K, T>, id: K): Option<T> {
    if id in m then Some(m[id]) else None
  }

  function Assembled(known: set<Id>, rows: map<Id, Row>, boxes: map<Id, Box>,
                     startJobs: map<Id, Job>, stopJobs: map<Id, Job>): Cells
  {
    map id | id in known :: Cell(At(rows, id), At(boxes, id), At(startJobs, id), At(stopJobs, id))
  }

  lemma Reassembled(cells: Cells)
    ensures Assembled(cells.Keys, RowsOf(cells), BoxesOf(cells), StartJobsOf(cells), StopJobsOf(cells)) == cells
  {
    forall id | id in cells
      ensures Cell(At(RowsOf(cells), id), At(BoxesOf(cells), id),
                   At(StartJobsOf(cells), id), At(StopJobsOf(cells), id)) == cells[id]
    {
      PartsOf(cells, id);
    }
  }

  lemma PartsOf(cells: Cells, id: Id)
    requires id in cells
    ensures cells[id] == Cell(At(RowsOf(cells), id), At(BoxesOf(cells), id),
                              At(StartJobsOf(cells), id), At(StopJobsOf(cells), id))
  {
  }

  lemma AssembledInsert(known: set<Id>, rows: map<Id, Row>, boxes: map<Id, Box>,
                        startJobs: map<Id, Job>, stopJobs: map<Id, Job>, id: Id, row: Row)
    requires id !in known && id !in boxes && id !in startJobs && id !in stopJobs
    ensures Assembled(known + {id}, rows[id := row], boxes, startJobs, stopJobs) ==
            Assembled(known, rows, boxes, startJobs, stopJobs)[id := NOBODY.(row := Some(row))]
  {
  }

  lemma KeysOf(cells: Cells)
    ensures RowsOf(cells).Keys <= cells.Keys && BoxesOf(cells).Keys <= cells.Keys
    ensures StartJobsOf(cells).Keys <= cells.Keys && StopJobsOf(cells).Keys <= cells.Keys
  {
  }

  /** The whole effect of an await of `a` on the world `w` that it met: this is what it left of the
      sandbox `id`, where it went, and what it counted; nothing else has changed. */
  ghost predicate Became(w: State, s: State, a: nat, id: Id, cell: Cell, actor: Option<Actor>, tally: Tally) {
    s == w.(
      cells := w.cells[id := cell],
      actors := if actor.Some? then w.actors[a := actor.value] else w.actors - {a},
      tally := tally)
  }

  /** The handler `a` goes on as `actor`, and nothing else changes. */
  ghost predicate GoesOn(w: State, s: State, a: nat, actor: Actor) {
    s == w.(actors := w.actors[a := actor])
  }

  ghost predicate FromEnv(env: Env, step: Step) {
    exists k: nat :: step in env.others(k)
  }

  /** An await fails only if the environment makes it fail. */
  ghost predicate Permitted(env: Env, choice: Choice) {
    choice.Fail? || choice.FailLanded? ==> exists k: nat :: env.choice(k) == choice
  }

  /** The step is an await of the handler itself. */
  ghost predicate OwnAwait(env: Env, step: Step) {
    step.Act? && Permitted(env, step.choice)
  }

  /** The run consists of the handler's own awaits and of what the environment did meanwhile. */
  ghost predicate Woven(env: Env, a: nat, trace: seq<Step>) {
    forall i :: 0 <= i < |trace| ==> if Avoids(trace[i], a) then FromEnv(env, trace[i]) else OwnAwait(env, trace[i])
  }

  lemma WovenExtends(env: Env, a: nat, trace: seq<Step>, k: nat, choice: Choice)
    requires EnvAvoids(env, a) && Woven(env, a, trace) && Permitted(env, choice)
    ensures Woven(env, a, trace + env.others(k) + [Act(a, choice)])
  {
    hide Permitted;
    var more := trace + env.others(k) + [Act(a, choice)];
    forall i | 0 <= i < |more| ensures if Avoids(more[i], a) then FromEnv(env, more[i]) else OwnAwait(env, more[i]) {
      if |trace| <= i < |trace| + |env.others(k)| {
        assert more[i] == env.others(k)[i - |trace|];
      }
    }
  }

  /** One more await: others first, then the own step. */
  lemma Extend(c: Consts, env: Env, a: nat, s0: State, trace: seq<Step>, k: nat, choice: Choice, s1: State, s2: State)
    requires EnvAvoids(env, a) && Woven(env, a, trace) && Permitted(env, choice)
    requires s1 == Run(c, s0, trace) && s2 == Next(c, Run(c, s1, env.others(k)), Act(a, choice))
    ensures
      var more := trace + env.others(k) + [Act(a, choice)];
      s2 == Run(c, s0, more) && Woven(env, a, more)
  {
    hide Next, Woven;
    RunAppend(c, s0, trace, env.others(k));
    RunSnoc(c, s0, trace + env.others(k), Act(a, choice));
    WovenExtends(env, a, trace, k, choice);
  }

  /** One more stretch of the handler. */
  lemma Join(c: Consts, env: Env, a: nat, s0: State, trace: seq<Step>, more: seq<Step>, s1: State, s2: State)
    requires Woven(env, a, trace) && Woven(env, a, more)
    requires s1 == Run(c, s0, trace) && s2 == Run(c, s1, more)
    ensures s2 == Run(c, s0, trace + more) && Woven(env, a, trace + more)
  {
    RunAppend(c, s0, trace, more);
  }

  lemma Nothing(c: Consts, env: Env, a: nat, s: State)
    ensures Run(c, s, []) == s && Woven(env, a, [])
  {
  }

  /** The state that the last step of a run met. */
  ghost function Met(c: Consts, s0: State, trace: seq<Step>): State
    requires trace != []
  {
    Run(c, s0, trace[..|trace| - 1])
  }

  lemma MetLast(c: Consts, s0: State, trace: seq<Step>, s1: State, others: seq<Step>, step: Step)
    requires s1 == Run(c, s0, trace)
    ensures Met(c, s0, trace + others + [step]) == Run(c, s1, others)
  {
    assert (trace + others + [step])[..|trace + others|] == trace + others;
    RunAppend(c, s0, trace, others);
  }

  lemma MetJoins(c: Consts, s0: State, trace: seq<Step>, s1: State, more: seq<Step>)
    requires s1 == Run(c, s0, trace) && more != []
    ensures Met(c, s0, trace + more) == Met(c, s1, more)
  {
    assert (trace + more)[..|trace + more| - 1] == trace + more[..|more| - 1];
    RunAppend(c, s0, trace, more[..|more| - 1]);
  }

  class Service {
    const c: Consts
    // Postgres
    var rows: map<Id, Row>
    var keys: map<Key, Id>
    // Docker
    var boxes: map<Id, Box>
    // the queue
    var startJobs: map<Id, Job>
    var stopJobs: map<Id, Job>
    // every id ever handed out
    var known: set<Id>
    // who else is at work, and where
    var actors: map<nat, Actor>
    var next: nat
    var now: Time
    // metrics and answers
    var tally: Tally
    var replies: map<nat, Reply>

    function CellOf(id: Id): Cell
      reads this
    {
      Cell(At(rows, id), At(boxes, id), At(startJobs, id), At(stopJobs, id))
    }

    /** The service as a state of the protocol. */
    function World(): State
      reads this
    {
      State(Assembled(known, rows, boxes, startJobs, stopJobs), keys, actors, next, now, tally, replies)
    }

    predicate Valid()
      reads this
    {
      rows.Keys <= known && boxes.Keys <= known && startJobs.Keys <= known && stopJobs.Keys <= known
    }

    /** An await: others run. */
    method Yield(others: seq<Step>, ghost me: nat)
      requires Valid() && me in actors && me < next
      requires forall i :: 0 <= i < |others| ==> Avoids(others[i], me)
      modifies this
      ensures Valid() && World() == Run(c, old(World()), others)
      ensures me in actors && actors[me] == old(actors[me]) && me < next && old(known) <= known
    {
      hide Next, Run;
      OthersKeepMeRun(c, World(), others, me);
      SetWorld(Run(c, World(), others));
    }

    method SetWorld(s: State)
      modifies this
      ensures Valid() && World() == s && known == s.cells.Keys
    {
      rows, boxes, startJobs, stopJobs := RowsOf(s.cells), BoxesOf(s.cells), StartJobsOf(s.cells), StopJobsOf(s.cells);
      known, keys, actors, next, now, tally, replies := s.cells.Keys, s.keys, s.actors, s.next, s.now, s.tally, s.replies;
      hide RowsOf, BoxesOf, StartJobsOf, StopJobsOf, Assembled;
      Reassembled(s.cells);
      KeysOf(s.cells);
    }

    // ---- Postgres ----

    /** `_transition`: compare-and-set on status. */
    method Transition(id: Id, from: set<Status>, values: Values) returns (changed: bool)
      requires Valid() && id in known
      modifies this`rows
      ensures Valid()
      ensures changed <==> Matches(old(CellOf(id)).row, from)
      ensures World() == old(World()).(cells := old(World()).cells[id := old(CellOf(id)).(
                row := if changed then Some(Written(old(CellOf(id)).row.value, values)) else old(CellOf(id)).row)])
    {
      changed := id in rows && rows[id].status in from;
      if changed {
        rows := rows[id := Written(rows[id], values)];
      }
      assert World().cells == old(World()).cells[id := CellOf(id)];
    }

    /** The insert of a new sandbox, with its entry in the unique index. */
    method InsertRow(id: Id, row: Row)
      requires Valid() && id !in known && (row.key.Some? ==> row.key.value !in keys)
      modifies this`rows, this`keys, this`known
      ensures Valid() && known == old(known) + {id}
      ensures World() == old(World()).(
                cells := old(World()).cells[id := NOBODY.(row := Some(row))],
                keys := if row.key.Some? then old(keys)[row.key.value := id] else old(keys))
    {
      rows, known := rows[id := row], known + {id};
      if row.key.Some? {
        keys := keys[row.key.value := id];
      }
      AssembledInsert(old(known), old(rows), boxes, startJobs, stopJobs, id, row);
      hide Assembled;
    }

    // ---- Docker ----

    /** `DockerRuntime.remove`: idempotent. */
    method Remove(id: Id) returns (removed: bool)
      requires Valid() && id in known
      modifies this`boxes
      ensures Valid()
      ensures removed <==> id in old(boxes)
      ensures World() == old(World()).(cells := old(World()).cells[id := old(CellOf(id)).(box := None)])
    {
      removed := id in boxes;
      boxes := boxes - {id};
      assert World().cells == old(World()).cells[id := CellOf(id)];
    }

    method CreateBox(id: Id, box: Box)
      requires Valid() && id in known
      modifies this`boxes
      ensures Valid()
      ensures World() == old(World()).(cells := old(World()).cells[id := old(CellOf(id)).(box := Some(box))])
    {
      boxes := boxes[id := box];
      assert World().cells == old(World()).cells[id := CellOf(id)];
    }

    /** `DockerRuntime.list_sandboxes`, for containers with well-formed labels. */
    method ListSandboxes(order: seq<Id>) returns (found: seq<Entry>)
      requires Valid() && Enumerates(order, World().cells)
      ensures found == Listing(order, World().cells)
    {
      found := [];
      var i := 0;
      while i < |order|
        invariant 0 <= i <= |order| && |found| == i
        invariant forall k :: 0 <= k < i ==> found[k] == Entry(order[k], Look(World().cells, order[k]).box.value.expiry)
      {
        assert order[i] in order;
        assert Look(World().cells, order[i]).box.Some?;
        found := found + [Entry(order[i], boxes[order[i]].expiry)];
        i := i + 1;
      }
    }

    // ---- The queue ----

    method EnqueueStop(id: Id, pool: Pool)
      requires Valid() && id in known
      modifies this`stopJobs
      ensures Valid() && stopJobs == if id in old(stopJobs) then old(stopJobs) else old(stopJobs)[id := Job(pool, 0)]
      ensures
        var cell := old(CellOf(id));
        World() == old(World()).(cells := old(World()).cells[id := cell.(stopJob := Enqueue(cell.stopJob, pool))])
    {
      if id !in stopJobs {
        stopJobs := stopJobs[id := Job(pool, 0)];
      }
      assert World().cells == old(World()).cells[id := CellOf(id)];
    }

    method EnqueueStart(id: Id, pool: Pool)
      requires Valid() && id in known
      modifies this`startJobs
      ensures Valid() && startJobs == if id in old(startJobs) then old(startJobs) else old(startJobs)[id := Job(pool, 0)]
      ensures
        var cell := old(CellOf(id));
        World() == old(World()).(cells := old(World()).cells[id := cell.(startJob := Enqueue(cell.startJob, pool))])
    {
      if id !in startJobs {
        startJobs := startJobs[id := Job(pool, 0)];
      }
      assert World().cells == old(World()).cells[id := CellOf(id)];
    }

    // ---- Facts about the fields ----

    /** Writing back what is there changes nothing. */
    lemma SameCell(id: Id)
      requires id in known
      ensures World().cells[id := CellOf(id)] == World().cells
    {
    }

    lemma LookAt(id: Id)
      requires id in known
      ensures Get(World(), id) == CellOf(id)
    {
    }
  }
}
