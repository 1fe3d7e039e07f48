/** The orchestrator as a system of concurrent actors: API requests, runs of the start and stop
    jobs, and reconcile sweeps. An actor's handler is cut at every `await`: between two of its
    steps any other actor may take any number of steps. */
module Protocol {
  import opened Lifecycle

  /** How the deployment is configured and which delivery guarantee the queue gives.
      `serial`: a job is never run twice at the same time. Otherwise a queued or running job may be
      delivered again at any time. */
  datatype Consts = Consts(serial: bool, maxTries: nat, maxActive: nat)

  /** The outcome counters of the two jobs. */
  datatype Tally = Tally(success: nat, retry: nat, failed: nat, expired: nat,
                         stopSuccess: nat, stopRetry: nat, stopFailed: nat)

  /** Which outcome counter a step raises. */
  datatype Note = Quiet | Success | Retry | Failure | Expired | StopSuccess | StopRetry | StopFailure

  function Noted(t: Tally, note: Note): Tally {
    match note
    case Quiet => t
    case Success => t.(success := t.success + 1)
    case Retry => t.(retry := t.retry + 1)
    case Failure => t.(failed := t.failed + 1)
    case Expired => t.(expired := t.expired + 1)
    case StopSuccess => t.(stopSuccess := t.stopSuccess + 1)
    case StopRetry => t.(stopRetry := t.stopRetry + 1)
    case StopFailure => t.(stopFailed := t.stopFailed + 1)
  }

  /** The result of a sweep. */
  datatype Reaped = Reaped(expired: nat, orphan: nat, vanished: nat)

  /** Where a run of `start_sandbox` stands: what its next await does. */
  datatype StartPc =
    | Read
    | Expire
    | Claim
    | Inspect
    | Clear(seen: Box)
    | Launch
    | Probe(port: nat)
    | Promote(port: nat)
    | Undo
    | Settle
    | Drop
    | Finish(again: bool)

  datatype StopPc = Remove | Mark | StopFinish(again: bool)

  datatype Entry = Entry(id: Id, expiry: Time)

  datatype SweepPc = Snap | List | Statuses | Clock | Loop | MarkStopped | Vanish(todo: set<Id>)

  /** The local variables of a run of `reconcile_sandboxes`. */
  datatype SweepVars = SweepVars(
    pc: SweepPc,
    running: set<Id>,
    listing: seq<Entry>,
    statuses: map<Id, Status>,
    at: Time,
    i: nat,
    reaped: Reaped)

  datatype Actor =
    | CreateCount(key: Option<Key>, ttl: nat)
    | CreateRoute(key: Option<Key>, ttl: nat)
    | CreateInsert(key: Option<Key>, expiresAt: Time, pool: Pool)
    | CreateReplay(wanted: Key)
    | CreateEnqueue(key: Option<Key>, id: Id, pool: Pool)
    | CreateFail(id: Id)
    | DeleteCas(id: Id)
    | DeleteRefresh(id: Id)
    | DeleteRoute(id: Id)
    | DeleteEnqueue(id: Id, pool: Pool)
    | Start(id: Id, try: nat, pc: StartPc)
    | Stop(id: Id, try: nat, spc: StopPc)
    | Sweep(vars: SweepVars)

  /** The answer to a `POST /sandboxes`. */
  datatype Reply = Accepted(key: Option<Key>, id: Id) | TooMany | Unavailable | ServerError

  datatype State = State(
    cells: map<Id, Cell>,        // by every id ever handed out; a uuid4 never repeats
    keys: map<Key, Id>,          // the unique index on `idempotency_key`
    actors: map<nat, Actor>,
    next: nat,                   // the handle of the next actor
    now: Time,
    tally: Tally,
    replies: map<nat, Reply>)

  /** How the environment resolves an await. */
  datatype Choice =
    | Ok
    | Fail                         // the call raises and had no effect
    | FailLanded                   // the call raises although its effect took place
    | Via(pool: Pool)              // the routing answer
    | Pick(id: Id)                 // a new uuid, or the next element of a set
    | Publish(port: nat)           // the host port Docker chose
    | Listed(order: seq<Id>)       // the order in which the daemon lists containers

  datatype Step =
    | Tick(elapsed: nat)
    | BoxDies(id: Id)
    | BoxExits(id: Id)
    | CreateBegin(key: Option<Key>, ttl: nat)
    | DeleteBegin(id: Id)
    | PickStart(id: Id)
    | PickStop(id: Id)
    | SweepBegin
    | Act(a: nat, choice: Choice)
    | Crash(a: nat, redeliver: bool)

  // ---- Bookkeeping ----

  const NOBODY := Cell(None, None, None, None)

  type Cells = map<Id, Cell>

  function Look(cells: Cells, id: Id): Cell {
    if id in cells then cells[id] else NOBODY
  }

  function Get(s: State, id: Id): Cell {
    Look(s.cells, id)
  }

  function Put(s: State, id: Id, cell: Cell): State {
    s.(cells := s.cells[id := cell])
  }

  function Spawn(s: State, actor: Actor): State {
    s.(actors := s.actors[s.next := actor], next := s.next + 1)
  }

  function End(s: State, a: nat): State {
    s.(actors := s.actors - {a})
  }

  /** The handler of `a` goes on as `actor`, or is done. */
  function Goto(s: State, a: nat, actor: Option<Actor>): State {
    if actor.Some? then s.(actors := s.actors[a := actor.value]) else End(s, a)
  }

  predicate IsStart(actor: Actor, id: Id) {
    actor.Start? && actor.id == id
  }

  predicate IsStop(actor: Actor, id: Id) {
    actor.Stop? && actor.id == id
  }

  predicate StartInFlight(s: State, id: Id) {
    exists a | a in s.actors :: IsStart(s.actors[a], id)
  }

  predicate StopInFlight(s: State, id: Id) {
    exists a | a in s.actors :: IsStop(s.actors[a], id)
  }

  function ActiveIds(cells: Cells): set<Id> {
    set id | id in cells && Matches(cells[id].row, ACTIVE)
  }

  function RunningIds(cells: Cells): set<Id> {
    set id | id in cells && Matches(cells[id].row, {Running})
  }

  // ---- POST /sandboxes ----

  function BeginCreate(s: State, key: Option<Key>, ttl: nat): State {
    if key.Some? && key.value in s.keys then
      s.(next := s.next + 1, replies := s.replies[s.next := Accepted(key, s.keys[key.value])])
    else
      Spawn(s, CreateCount(key, ttl))
  }

  function NewRow(key: Option<Key>, expiresAt: Time, pool: Pool): Row {
    Row(Queued, None, None, 0, pool, expiresAt, key)
  }

  /** The effect of one await of `create_sandbox`: the table, the unique index, where the handler goes
      next, and the answer if it ends here. */
  datatype CreateOut = CreateOut(cells: Cells, keys: map<Key, Id>, next: Option<Actor>, reply: Option<Reply>)

  function StepCreate(c: Consts, cells: Cells, keys: map<Key, Id>, now: Time, actor: Actor, choice: Choice)
    : CreateOut
  {
    var stay := CreateOut(cells, keys, Some(actor), None);
    match actor
    case CreateCount(key, ttl) =>
      if |ActiveIds(cells)| >= c.maxActive then CreateOut(cells, keys, None, Some(TooMany))
      else CreateOut(cells, keys, Some(CreateRoute(key, ttl)), None)
    case CreateRoute(key, ttl) =>
      if choice.Via? then CreateOut(cells, keys, Some(CreateInsert(key, now + ttl * SECOND, choice.pool)), None)
      else stay
    case CreateInsert(key, expiresAt, pool) =>
      if key.Some? && key.value in keys then CreateOut(cells, keys, Some(CreateReplay(key.value)), None)
      else if choice.Pick? && choice.id !in cells then
        CreateOut(cells[choice.id := NOBODY.(row := Some(NewRow(key, expiresAt, pool)))],
                  if key.Some? then keys[key.value := choice.id] else keys,
                  Some(CreateEnqueue(key, choice.id, pool)), None)
      else stay
    case CreateReplay(key) =>
      CreateOut(cells, keys, None,
                Some(if key in keys then Accepted(Some(key), keys[key]) else ServerError))
    case CreateEnqueue(key, id, pool) =>
      var cell := Look(cells, id);
      var queued := cells[id := cell.(startJob := Enqueue(cell.startJob, pool))];
      (match choice
       case Ok => CreateOut(queued, keys, None, Some(Accepted(key, id)))
       case Fail => CreateOut(cells, keys, Some(CreateFail(id)), None)
       case FailLanded => CreateOut(queued, keys, Some(CreateFail(id)), None)
       case _ => stay)
    case CreateFail(id) =>
      // A plain write: whatever status the row has by now is overwritten.
      var cell := Look(cells, id);
      CreateOut(if cell.row.None? then cells
                else cells[id := cell.(row := Some(cell.row.value.(status := Failed, error := Some(EnqueueFailed))))],
                keys, None, Some(Unavailable))
    case _ => stay
  }

  // ---- DELETE /sandboxes/{id} ----

  function BeginDelete(s: State, id: Id): State {
    if Matches(Get(s, id).row, ACTIVE) then Spawn(s, DeleteCas(id)) else s
  }

  /** The effect of one await of the DELETE handler on its sandbox, and where it goes next. */
  datatype DeleteOut = DeleteOut(cell: Cell, next: Option<Actor>)

  function StepDelete(cell: Cell, actor: Actor, choice: Choice): DeleteOut {
    match actor
    case DeleteCas(id) =>
      DeleteOut(cell.(row := SetStatus(cell.row, ACTIVE, Stopping)), Some(DeleteRefresh(id)))
    case DeleteRefresh(id) =>
      DeleteOut(cell, if Matches(cell.row, {Stopping}) then Some(DeleteRoute(id)) else None)
    case DeleteRoute(id) =>
      DeleteOut(cell, if choice.Via? then Some(DeleteEnqueue(id, choice.pool)) else Some(actor))
    case DeleteEnqueue(id, pool) =>
      (match choice
       case Ok => DeleteOut(cell.(stopJob := Enqueue(cell.stopJob, pool)), None)
       case Fail => DeleteOut(cell, None)
       case FailLanded => DeleteOut(cell.(stopJob := Enqueue(cell.stopJob, pool)), None)
       case _ => DeleteOut(cell, Some(actor)))
    case _ => DeleteOut(cell, Some(actor))
  }

  // ---- start_sandbox ----

  function BeginStart(c: Consts, s: State, id: Id): State {
    var cell := Get(s, id);
    if cell.startJob.None? || (c.serial && StartInFlight(s, id)) then s
    else if cell.startJob.value.tries >= c.maxTries then Put(s, id, cell.(startJob := None))
    else
      var job := cell.startJob.value.(tries := cell.startJob.value.tries + 1);
      Put(Spawn(s, Start(id, job.tries, Read)), id, cell.(startJob := Some(job)))
  }

  /** The effect of one await of `start_sandbox` on its sandbox, where the handler goes next, and
      the outcome it counts. */
  datatype StartOut = StartOut(cell: Cell, pc: StartPc, note: Note)

  function StepStart(c: Consts, now: Time, cell: Cell, try: nat, pc: StartPc, choice: Choice): StartOut {
    match pc
    case Read =>
      if cell.row.None? then StartOut(cell, Finish(false), Failure)
      else if cell.row.value.status !in STARTABLE then StartOut(cell, Finish(false), Quiet)
      else if cell.row.value.expiresAt <= now then StartOut(cell, Expire, Quiet)
      else StartOut(cell, Claim, Quiet)
    case Expire =>
      StartOut(cell.(row := SetFailure(cell.row, STARTABLE, Stopped, ExpiredInQueue)), Finish(false), Expired)
    case Claim =>
      if Matches(cell.row, STARTABLE) then
        StartOut(cell.(row := Some(cell.row.value.(status := Starting, attempts := try))), Inspect, Quiet)
      else StartOut(cell, Finish(false), Quiet)
    case Inspect =>
      if !choice.Ok? then StartOut(cell, Undo, Quiet)
      else if cell.box.None? then StartOut(cell, Launch, Quiet)
      else if cell.box.value.up then StartOut(cell, Probe(cell.box.value.port), Quiet)
      else StartOut(cell, Clear(cell.box.value), Quiet)
    case Clear(seen) =>
      // Removes the very container that was inspected; if that one is gone the call raises.
      if choice.Ok? && cell.box == Some(seen) then StartOut(cell.(box := None), Launch, Quiet)
      else StartOut(cell, Undo, Quiet)
    case Launch =>
      if cell.box.Some? then
        // The name is taken: reuse that container, which must be up to have a port.
        if choice.Publish? && cell.box.value.up then StartOut(cell, Probe(cell.box.value.port), Quiet)
        else StartOut(cell, Undo, Quiet)
      else if cell.row.None? then StartOut(cell, Undo, Quiet)
      else if choice.Publish? then
        StartOut(cell.(box := Some(Box(Label(cell.row.value.expiresAt), true, choice.port))),
                 Probe(choice.port), Quiet)
      else if choice.FailLanded? then
        StartOut(cell.(box := Some(Box(Label(cell.row.value.expiresAt), false, 0))), Undo, Quiet)
      else StartOut(cell, Undo, Quiet)
    case Probe(port) =>
      // Only a container that is up can answer.
      if choice.Ok? && cell.box.Some? && cell.box.value.up then StartOut(cell, Promote(port), Quiet)
      else StartOut(cell, Undo, Quiet)
    case Promote(port) =>
      if Matches(cell.row, {Starting}) then
        StartOut(cell.(row := Some(cell.row.value.(status := Running, url := Some(port), error := None))),
                 Finish(false), Success)
      else StartOut(cell, Drop, Quiet)
    case Undo =>
      StartOut(if choice.Ok? then cell.(box := None) else cell, Settle, Quiet)
    case Settle =>
      if try < c.maxTries then
        if Matches(cell.row, {Starting}) then
          StartOut(cell.(row := SetFailure(cell.row, {Starting}, Queued, LaunchFailed)), Finish(true), Retry)
        else StartOut(cell, Finish(false), Quiet)
      else
        StartOut(cell.(row := SetFailure(cell.row, {Starting}, Failed, LaunchFailed)), Finish(false), Failure)
    case Drop =>
      StartOut(if choice.Ok? then cell.(box := None) else cell, Finish(false), Quiet)
    case Finish(again) =>
      StartOut(if again then cell else cell.(startJob := None), pc, Quiet)
  }

  // ---- stop_sandbox ----

  function BeginStop(c: Consts, s: State, id: Id): State {
    var cell := Get(s, id);
    if cell.stopJob.None? || (c.serial && StopInFlight(s, id)) then s
    else if cell.stopJob.value.tries >= c.maxTries then Put(s, id, cell.(stopJob := None))
    else
      var job := cell.stopJob.value.(tries := cell.stopJob.value.tries + 1);
      Put(Spawn(s, Stop(id, job.tries, Remove)), id, cell.(stopJob := Some(job)))
  }

  datatype StopOut = StopOut(cell: Cell, pc: StopPc, note: Note)

  function StepStop(c: Consts, cell: Cell, try: nat, pc: StopPc, choice: Choice): StopOut {
    match pc
    case Remove =>
      if choice.Ok? then StopOut(cell.(box := None), Mark, Quiet)
      else if try < c.maxTries then StopOut(cell, StopFinish(true), StopRetry)
      else StopOut(cell, StopFinish(false), StopFailure)
    case Mark =>
      StopOut(cell.(row := SetStatus(cell.row, {Stopping}, Stopped)), StopFinish(false), StopSuccess)
    case StopFinish(again) =>
      StopOut(if again then cell else cell.(stopJob := None), pc, Quiet)
  }

  // ---- reconcile_sandboxes ----

  const NOTHING_REAPED := Reaped(0, 0, 0)
  const NEW_SWEEP := SweepVars(Snap, {}, [], map[], 0, 0, NOTHING_REAPED)

  /** The ids of the listed containers. */
  function Live(listing: seq<Entry>): set<Id> {
    set e | e in listing :: e.id
  }

  /** `order` enumerates the containers, each once. */
  predicate Enumerates(order: seq<Id>, cells: Cells) {
    && (forall id | id in order :: Look(cells, id).box.Some?)
    && (forall id | id in cells && cells[id].box.Some? :: id in order)
    && (forall i, j | 0 <= i < j < |order| :: order[i] != order[j])
  }

  function Listing(order: seq<Id>, cells: Cells): (listing: seq<Entry>)
    requires forall id | id in order :: Look(cells, id).box.Some?
    ensures |listing| == |order|
    ensures forall i | 0 <= i < |order| :: listing[i] == Entry(order[i], Look(cells, order[i]).box.value.expiry)
  {
    seq(|order|, i requires 0 <= i < |order| => Entry(order[i], Look(cells, order[i]).box.value.expiry))
  }

  function StatusesOf(cells: Cells, listing: seq<Entry>): map<Id, Status> {
    map id | id in Live(listing) && Look(cells, id).row.Some? :: Look(cells, id).row.value.status
  }

  /** A container whose row says that none is wanted, or that has no row. */
  predicate Orphaned(statuses: map<Id, Status>, id: Id) {
    id !in statuses || statuses[id] in NO_CONTAINER_WANTED
  }

  predicate MustGo(v: SweepVars, e: Entry) {
    e.expiry <= v.at || Orphaned(v.statuses, e.id)
  }

  function Count(reaped: Reaped, expired: bool): Reaped {
    if expired then reaped.(expired := reaped.expired + 1) else reaped.(orphan := reaped.orphan + 1)
  }

  /** The bulk update that ends a sweep: stops whose job was lost. */
  function FinishLostStops(cells: Cells, live: set<Id>): Cells {
    map id | id in cells ::
      if id in live then cells[id]
      else cells[id].(row := SetStatus(cells[id].row, {Stopping}, Stopped))
  }

  /** The effect of one await of `reconcile_sandboxes`, and its variables unless it is done. */
  datatype SweepOut = SweepOut(cells: Cells, vars: Option<SweepVars>)

  function StepSweep(cells: Cells, now: Time, v: SweepVars, choice: Choice): SweepOut {
    match v.pc
    case Snap => SweepOut(cells, Some(v.(pc := List, running := RunningIds(cells))))
    case List =>
      if choice.Listed? && Enumerates(choice.order, cells) then
        SweepOut(cells, Some(v.(pc := Statuses, listing := Listing(choice.order, cells))))
      else SweepOut(cells, if choice.Fail? then None else Some(v))
    case Statuses => SweepOut(cells, Some(v.(pc := Clock, statuses := StatusesOf(cells, v.listing))))
    case Clock => SweepOut(cells, Some(v.(pc := Loop, at := now, i := 0)))
    case Loop =>
      if v.i >= |v.listing| then SweepOut(cells, Some(v.(pc := Vanish(v.running - Live(v.listing)))))
      else if !MustGo(v, v.listing[v.i]) then SweepOut(cells, Some(v.(i := v.i + 1)))
      else if choice.Ok? then
        var id := v.listing[v.i].id;
        SweepOut(cells[id := Look(cells, id).(box := None)], Some(v.(pc := MarkStopped)))
      else SweepOut(cells, None)
    case MarkStopped =>
      if v.i >= |v.listing| then SweepOut(cells, Some(v))
      else
        var e := v.listing[v.i];
        var cell := Look(cells, e.id);
        SweepOut(cells[e.id := cell.(row := SetStatus(cell.row, ACTIVE, Stopped))],
                 Some(v.(pc := Loop, i := v.i + 1, reaped := Count(v.reaped, e.expiry <= v.at))))
    case Vanish(todo) =>
      if todo == {} then SweepOut(FinishLostStops(cells, Live(v.listing)), None)
      else if choice.Pick? && choice.id in todo then
        var cell := Look(cells, choice.id);
        if Matches(cell.row, {Running}) then
          SweepOut(cells[choice.id := cell.(row := SetFailure(cell.row, {Running}, Failed, ContainerDisappeared))],
                   Some(v.(pc := Vanish(todo - {choice.id}),
                           reaped := v.reaped.(vanished := v.reaped.vanished + 1))))
        else SweepOut(cells, Some(v.(pc := Vanish(todo - {choice.id}))))
      else SweepOut(cells, Some(v))
  }

  // ---- The whole system ----

  predicate IsDelete(actor: Actor) {
    actor.DeleteCas? || actor.DeleteRefresh? || actor.DeleteRoute? || actor.DeleteEnqueue?
  }

  function StepActor(c: Consts, s: State, a: nat, actor: Actor, choice: Choice): State {
    match actor
    case Start(id, try, pc) =>
      var out := StepStart(c, s.now, Get(s, id), try, pc, choice);
      Goto(s, a, if pc.Finish? then None else Some(Start(id, try, out.pc))).(
        cells := s.cells[id := out.cell], tally := Noted(s.tally, out.note))
    case Stop(id, try, pc) =>
      var out := StepStop(c, Get(s, id), try, pc, choice);
      Goto(s, a, if pc.StopFinish? then None else Some(Stop(id, try, out.pc))).(
        cells := s.cells[id := out.cell], tally := Noted(s.tally, out.note))
    case Sweep(v) =>
      var out := StepSweep(s.cells, s.now, v, choice);
      Goto(s, a, if out.vars.Some? then Some(Sweep(out.vars.value)) else None).(cells := out.cells)
    case _ =>
      if IsDelete(actor) then
        var out := StepDelete(Get(s, actor.id), actor, choice);
        Goto(s, a, out.next).(cells := s.cells[actor.id := out.cell])
      else
        var out := StepCreate(c, s.cells, s.keys, s.now, actor, choice);
        Goto(s, a, out.next).(
          cells := out.cells, keys := out.keys,
          replies := if out.reply.Some? then s.replies[a := out.reply.value] else s.replies)
  }

  /** A worker or API process dies, or a handler raises: the actor is gone. The queue either
      delivers the job again later or, on its last try, forgets it. */
  function StepCrash(s: State, a: nat, actor: Actor, redeliver: bool): State {
    if redeliver then End(s, a)
    else if actor.Start? then Put(End(s, a), actor.id, Get(s, actor.id).(startJob := None))
    else if actor.Stop? then Put(End(s, a), actor.id, Get(s, actor.id).(stopJob := None))
    else End(s, a)
  }

  /** Something happens to the container of `id` that nobody in the system asked for. */
  function StepBox(s: State, id: Id, exits: bool): State {
    var cell := Get(s, id);
    if cell.box.None? then s
    else Put(s, id, cell.(box := if exits then Some(cell.box.value.(up := false)) else None))
  }

  /** One atomic step. A step that cannot be taken leaves the state as it is, so that every
      sequence of steps is a run. */
  function Next(c: Consts, s: State, step: Step): State {
    match step
    case Tick(elapsed) => s.(now := s.now + elapsed)
    case BoxDies(id) => StepBox(s, id, false)
    case BoxExits(id) => StepBox(s, id, true)
    case CreateBegin(key, ttl) => BeginCreate(s, key, ttl)
    case DeleteBegin(id) => BeginDelete(s, id)
    case PickStart(id) => BeginStart(c, s, id)
    case PickStop(id) => BeginStop(c, s, id)
    case SweepBegin => Spawn(s, Sweep(NEW_SWEEP))
    case Act(a, choice) => if a in s.actors then StepActor(c, s, a, s.actors[a], choice) else s
    case Crash(a, redeliver) => if a in s.actors then StepCrash(s, a, s.actors[a], redeliver) else s
  }

  function Run(c: Consts, s: State, steps: seq<Step>): State
    decreases |steps|
  {
    if steps == [] then s else Run(c, Next(c, s, steps[0]), steps[1..])
  }

  /** A start of the service: no request, job or sweep in flight and no rows yet. Containers left
      behind by a lost database may still run. */
  ghost predicate Init(s: State) {
    && s.keys == map[] && s.actors == map[] && s.replies == map[]
    && (forall id :: id in s.cells ==> s.cells[id] == NOBODY.(box := s.cells[id].box))
    && s.tally == Tally(0, 0, 0, 0, 0, 0, 0)
  }

  lemma {:induction false} RunAppend(c: Consts, s: State, before: seq<Step>, after: seq<Step>)
    ensures Run(c, s, before + after) == Run(c, Run(c, s, before), after)
    decreases |before|
  {
    if before == [] {
      assert before + after == after;
    } else {
      assert (before + after)[1..] == before[1..] + after;
      RunAppend(c, Next(c, s, before[0]), before[1..], after);
    }
  }

  lemma RunSnoc(c: Consts, s: State, steps: seq<Step>, step: Step)
    ensures Run(c, s, steps + [step]) == Next(c, Run(c, s, steps), step)
  {
    RunAppend(c, s, steps, [step]);
    var t := Run(c, s, steps);
    assert Run(c, t, [step]) == Run(c, Next(c, t, step), []);
  }
}
