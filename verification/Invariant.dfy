/** What holds in every reachable state, under any delivery regime and any faults: the facts on
    which decisions taken from stale reads rest. */
module Invariant {
  import opened Lifecycle
  import opened Protocol

  predicate PastRead(pc: SweepPc) {
    !pc.Snap? && !pc.List? && !pc.Statuses?
  }

  ghost predicate Reached(s: State, id: Id, stage: nat) {
    id in s.cells && AtLeast(s.cells[id], stage)
  }

  /** What a sweep knows about the containers it listed. */
  ghost predicate ListingOk(s: State, v: SweepVars) {
    && (forall e :: e in v.listing ==>
          e.id in s.cells
          && (s.cells[e.id].row.Some? ==> e.expiry == Label(s.cells[e.id].row.value.expiresAt)))
    && (forall i, j :: 0 <= i < j < |v.listing| ==> v.listing[i].id != v.listing[j].id)
    && (PastRead(v.pc) ==>
          forall e :: e in v.listing ==> e.id in v.statuses || s.cells[e.id].row.None?)
  }

  /** A sweep's reads may be old, but they only err on the early side of a row's life. */
  ghost predicate SweepOk(s: State, v: SweepVars) {
    && (forall id :: id in v.running ==> Reached(s, id, 1))
    && (forall id :: id in v.statuses ==> Reached(s, id, Stage(v.statuses[id])))
    && ListingOk(s, v)
    && v.at <= s.now
    && (v.pc.MarkStopped? ==> v.i < |v.listing| && MustGo(v, v.listing[v.i]))
    && (v.pc.Vanish? ==> v.pc.todo <= v.running - Live(v.listing))
  }

  ghost predicate ActorOk(s: State, actor: Actor) {
    match actor
    case CreateReplay(key) => key in s.keys
    case CreateEnqueue(key, id, _) => Reached(s, id, 0) && s.cells[id].row.value.key == key
    case CreateFail(id) => Reached(s, id, 0)
    case DeleteCas(id) => Reached(s, id, 0)
    case DeleteRefresh(id) => Reached(s, id, 2)
    case DeleteRoute(id) => Reached(s, id, 2)
    case DeleteEnqueue(id, _) => Reached(s, id, 2)
    case Start(id, _, _) => Reached(s, id, 0)
    case Stop(id, _, _) => Reached(s, id, 2)
    case Sweep(v) => SweepOk(s, v)
    case _ => true
  }

  ghost predicate ActorsOk(s: State) {
    forall a :: a in s.actors ==> a < s.next && ActorOk(s, s.actors[a])
  }

  /** The unique index: a key belongs to one row. */
  ghost predicate IndexOk(s: State) {
    && (forall key :: key in s.keys ==>
          Reached(s, s.keys[key], 0) && s.cells[s.keys[key]].row.value.key == Some(key))
    && (forall id :: Reached(s, id, 0) && s.cells[id].row.value.key.Some? ==>
          s.cells[id].row.value.key.value in s.keys && s.keys[s.cells[id].row.value.key.value] == id)
  }

  /** A container carries its row's expiry; a start job has a row; a stop job is justified. */
  ghost predicate CellOk(cell: Cell) {
    && (cell.box.Some? && cell.row.Some? ==> cell.box.value.expiry == Label(cell.row.value.expiresAt))
    && (cell.startJob.Some? ==> cell.row.Some?)
    && (cell.stopJob.Some? ==> AtLeast(cell, 2))
  }

  ghost predicate CellsOk(s: State) {
    forall id :: id in s.cells ==> CellOk(s.cells[id])
  }

  ghost predicate Inv(s: State) {
    CellsOk(s) && IndexOk(s) && ActorsOk(s)
  }

  /** What every step guarantees to all other actors. */
  ghost predicate Guarantee(s: State, s': State) {
    && s.now <= s'.now
    && s.next <= s'.next
    && (forall id :: id in s.cells ==> id in s'.cells && Grows(s.cells[id], s'.cells[id]))
    && (forall key :: key in s.keys ==> key in s'.keys && s'.keys[key] == s.keys[key])
  }

  /** Only `a` is touched among the actors. */
  ghost predicate OthersKept(s: State, s': State, a: nat) {
    forall b :: b in s'.actors && b != a ==> b in s.actors && s'.actors[b] == s.actors[b]
  }

  // ---- Stability ----

  lemma SweepStable(s: State, s': State, v: SweepVars)
    requires Guarantee(s, s') && SweepOk(s, v)
    ensures SweepOk(s', v)
  {
    forall id | id in v.running ensures Reached(s', id, 1) {
      assert Reached(s, id, 1);
    }
    forall id | id in v.statuses ensures Reached(s', id, Stage(v.statuses[id])) {
      assert Reached(s, id, Stage(v.statuses[id]));
    }
  }

  /** Whatever an actor has established about the shared state survives the steps of others. */
  lemma ActorStable(s: State, s': State, actor: Actor)
    requires Guarantee(s, s') && ActorOk(s, actor)
    ensures ActorOk(s', actor)
  {
    if actor.Sweep? {
      SweepStable(s, s', actor.vars);
    }
  }

  lemma ActorsStable(s: State, s': State, a: nat)
    requires Guarantee(s, s') && ActorsOk(s) && OthersKept(s, s', a)
    requires a in s'.actors ==> a < s'.next && ActorOk(s', s'.actors[a])
    ensures ActorsOk(s')
  {
    forall b | b in s'.actors ensures b < s'.next && ActorOk(s', s'.actors[b]) {
      if b != a {
        assert ActorOk(s, s.actors[b]);
        ActorStable(s, s', s.actors[b]);
      }
    }
  }

  // ---- Effects on the shared data ----

  ghost predicate DataKept(s: State, s': State) {
    CellsOk(s') && IndexOk(s') && Guarantee(s, s')
  }

  lemma NoEffect(s: State, s': State)
    requires CellsOk(s) && IndexOk(s)
    requires s'.cells == s.cells && s'.keys == s.keys && s.now <= s'.now && s.next <= s'.next
    ensures DataKept(s, s')
  {
  }

  /** Rows that only grow keep the index right. */
  lemma IndexStable(s: State, s': State)
    requires IndexOk(s) && Guarantee(s, s') && s'.keys == s.keys && s'.cells.Keys == s.cells.Keys
    ensures IndexOk(s')
  {
    forall key | key in s'.keys
      ensures Reached(s', s'.keys[key], 0) && s'.cells[s'.keys[key]].row.value.key == Some(key)
    {
      assert Reached(s, s.keys[key], 0);
    }
    forall j | Reached(s', j, 0) && s'.cells[j].row.value.key.Some?
      ensures s'.cells[j].row.value.key.value in s'.keys && s'.keys[s'.cells[j].row.value.key.value] == j
    {
      assert j in s.cells;
      assert Reached(s, j, 0);
    }
  }

  lemma CellEffect(s: State, s': State, id: Id)
    requires CellsOk(s) && IndexOk(s) && id in s.cells
    requires s'.cells == s.cells[id := Get(s', id)]
    requires s'.keys == s.keys && s.now <= s'.now && s.next <= s'.next
    requires Grows(Get(s, id), Get(s', id)) && CellOk(Get(s', id))
    ensures DataKept(s, s')
  {
    hide IndexOk;
    assert s'.cells.Keys == s.cells.Keys;
    IndexStable(s, s');
  }

  lemma InsertEffect(s: State, s': State, id: Id, key: Option<Key>, expiresAt: Time, pool: Pool)
    requires CellsOk(s) && IndexOk(s) && id !in s.cells
    requires key.Some? ==> key.value !in s.keys
    requires s'.cells == s.cells[id := NOBODY.(row := Some(NewRow(key, expiresAt, pool)))]
    requires s'.keys == if key.Some? then s.keys[key.value := id] else s.keys
    requires s.now <= s'.now && s.next <= s'.next
    ensures DataKept(s, s')
  {
    assert CellsOk(s') && Guarantee(s, s');
    hide CellsOk, Guarantee;
    forall k | k in s'.keys
      ensures Reached(s', s'.keys[k], 0) && s'.cells[s'.keys[k]].row.value.key == Some(k)
    {
      if k in s.keys {
        assert Reached(s, s.keys[k], 0);
      }
    }
    forall j | Reached(s', j, 0) && s'.cells[j].row.value.key.Some?
      ensures s'.cells[j].row.value.key.value in s'.keys && s'.keys[s'.cells[j].row.value.key.value] == j
    {
      if j != id {
        assert Reached(s, j, 0);
      }
    }
  }

  lemma BulkEffect(s: State, s': State, live: set<Id>)
    requires CellsOk(s) && IndexOk(s)
    requires s'.cells == FinishLostStops(s.cells, live)
    requires s'.keys == s.keys && s.now <= s'.now && s.next <= s'.next
    ensures DataKept(s, s')
  {
    hide IndexOk;
    assert s'.cells.Keys == s.cells.Keys;
    IndexStable(s, s');
  }

  lemma CellIsOk(s: State, id: Id)
    requires Inv(s) && id in s.cells
    ensures CellOk(s.cells[id])
  {
  }

  // ---- Each handler ----

  /** One await of `start_sandbox`, on its own sandbox. */
  lemma StartOnCell(c: Consts, now: Time, cell: Cell, try: nat, pc: StartPc, choice: Choice)
    requires CellOk(cell)
    ensures
      var out := StepStart(c, now, cell, try, pc, choice);
      Grows(cell, out.cell) && CellOk(out.cell)
  {
  }

  /** One await of `stop_sandbox`, on its own sandbox. */
  lemma StopOnCell(c: Consts, cell: Cell, try: nat, pc: StopPc, choice: Choice)
    requires CellOk(cell)
    ensures
      var out := StepStop(c, cell, try, pc, choice);
      Grows(cell, out.cell) && CellOk(out.cell)
  {
  }

  /** One await of the DELETE handler: past its write the row is `Stopping` or beyond, and only
      then is a stop job enqueued. */
  lemma DeleteOnCell(cell: Cell, actor: Actor, choice: Choice)
    requires CellOk(cell) && cell.row.Some? && IsDelete(actor)
    requires !actor.DeleteCas? ==> AtLeast(cell, 2)
    ensures
      var out := StepDelete(cell, actor, choice);
      Grows(cell, out.cell) && CellOk(out.cell)
      && (out.next.Some? ==>
            IsDelete(out.next.value) && out.next.value.id == actor.id
            && (!out.next.value.DeleteCas? ==> AtLeast(out.cell, 2)))
  {
  }

  predicate Owns(s: State, a: nat) {
    a in s.actors && a < s.next
  }

  /** A step of `a` keeps the shared data in order and leaves `a` with a justified next step. */
  ghost predicate StepOk(s: State, s': State, a: nat) {
    && DataKept(s, s')
    && OthersKept(s, s', a)
    && (a in s'.actors ==> a < s'.next && ActorOk(s', s'.actors[a]))
  }

  lemma StartStep(c: Consts, s: State, a: nat, choice: Choice)
    requires CellsOk(s) && IndexOk(s) && Owns(s, a) && s.actors[a].Start? && ActorOk(s, s.actors[a])
    ensures StepOk(s, StepActor(c, s, a, s.actors[a], choice), a)
  {
    hide StepStart, IndexOk, Guarantee, DataKept;
    var actor := s.actors[a];
    var s' := StepActor(c, s, a, actor, choice);
    StartOnCell(c, s.now, Get(s, actor.id), actor.try, actor.pc, choice);
    CellEffect(s, s', actor.id);
  }

  lemma StopStep(c: Consts, s: State, a: nat, choice: Choice)
    requires CellsOk(s) && IndexOk(s) && Owns(s, a) && s.actors[a].Stop? && ActorOk(s, s.actors[a])
    ensures StepOk(s, StepActor(c, s, a, s.actors[a], choice), a)
  {
    hide StepStop, IndexOk, Guarantee, DataKept;
    var actor := s.actors[a];
    var s' := StepActor(c, s, a, actor, choice);
    StopOnCell(c, Get(s, actor.id), actor.try, actor.spc, choice);
    CellEffect(s, s', actor.id);
  }

  lemma DeleteStep(c: Consts, s: State, a: nat, choice: Choice)
    requires CellsOk(s) && IndexOk(s) && Owns(s, a) && IsDelete(s.actors[a]) && ActorOk(s, s.actors[a])
    ensures StepOk(s, StepActor(c, s, a, s.actors[a], choice), a)
  {
    hide IndexOk, Guarantee, DataKept, StepDelete;
    var x := s.actors[a];
    assert Reached(s, x.id, 0);
    DeleteOnCell(Get(s, x.id), x, choice);
    CellEffect(s, StepActor(c, s, a, x, choice), x.id);
  }

  lemma InsertStep(c: Consts, s: State, a: nat, choice: Choice)
    requires CellsOk(s) && IndexOk(s) && Owns(s, a) && s.actors[a].CreateInsert?
    ensures StepOk(s, StepActor(c, s, a, s.actors[a], choice), a)
  {
    hide IndexOk, Guarantee, DataKept;
    var CreateInsert(key, expiresAt, pool) := s.actors[a];
    var s' := StepActor(c, s, a, s.actors[a], choice);
    if (key.Some? ==> key.value !in s.keys) && choice.Pick? && choice.id !in s.cells {
      InsertEffect(s, s', choice.id, key, expiresAt, pool);
      assert Reached(s', choice.id, 0);
    } else {
      NoEffect(s, s');
    }
  }

  lemma EnqueueStep(c: Consts, s: State, a: nat, choice: Choice)
    requires CellsOk(s) && IndexOk(s) && Owns(s, a) && ActorOk(s, s.actors[a])
    requires s.actors[a].CreateEnqueue? || s.actors[a].CreateFail?
    ensures StepOk(s, StepActor(c, s, a, s.actors[a], choice), a)
  {
    hide IndexOk, Guarantee, DataKept;
    CellEffect(s, StepActor(c, s, a, s.actors[a], choice), s.actors[a].id);
  }

  lemma AdmitStep(c: Consts, s: State, a: nat, choice: Choice)
    requires CellsOk(s) && IndexOk(s) && Owns(s, a) && ActorOk(s, s.actors[a])
    requires s.actors[a].CreateCount? || s.actors[a].CreateRoute? || s.actors[a].CreateReplay?
    ensures StepOk(s, StepActor(c, s, a, s.actors[a], choice), a)
  {
    hide IndexOk, Guarantee, DataKept;
    NoEffect(s, StepActor(c, s, a, s.actors[a], choice));
  }

  // ---- Sweeps ----

  /** What the next await of a sweep does to the shared data, in the terms of `DataKept`. */
  lemma SweepEffect(s: State, s': State, v: SweepVars, choice: Choice)
    requires CellsOk(s) && IndexOk(s) && SweepOk(s, v)
    requires s'.cells == StepSweep(s.cells, s.now, v, choice).cells
    requires s'.keys == s.keys && s.now <= s'.now && s.next <= s'.next
    ensures DataKept(s, s')
  {
    hide IndexOk, Guarantee, DataKept, Enumerates, RunningIds, StatusesOf, FinishLostStops, ListingOk;
    ListedKnown(s, v);
    if v.pc.Loop? && v.i < |v.listing| && MustGo(v, v.listing[v.i]) && choice.Ok? {
      CellEffect(s, s', v.listing[v.i].id);
    } else if v.pc.MarkStopped? {
      CellEffect(s, s', v.listing[v.i].id);
    } else if v.pc.Vanish? && v.pc.todo == {} {
      BulkEffect(s, s', Live(v.listing));
    } else if v.pc.Vanish? && choice.Pick? && choice.id in v.pc.todo && Matches(Get(s, choice.id).row, {Running}) {
      assert Reached(s, choice.id, 1);
      CellEffect(s, s', choice.id);
    } else {
      NoEffect(s, s');
    }
  }

  lemma ListedKnown(s: State, v: SweepVars)
    requires SweepOk(s, v)
    ensures v.pc.MarkStopped? ==> v.i < |v.listing|
    ensures v.i < |v.listing| ==> v.listing[v.i].id in s.cells
    ensures v.pc.Vanish? ==> v.pc.todo <= v.running - Live(v.listing)
    ensures v.at <= s.now
    ensures forall id :: id in v.running ==> Reached(s, id, 1)
  {
    assert v.i < |v.listing| ==> v.listing[v.i] in v.listing;
  }

  lemma ListingFits(s: State, order: seq<Id>, v: SweepVars)
    requires CellsOk(s) && Enumerates(order, s.cells)
    requires v.listing == Listing(order, s.cells) && !PastRead(v.pc)
    ensures ListingOk(s, v)
  {
    forall e | e in v.listing
      ensures e.id in s.cells
      ensures s.cells[e.id].row.Some? ==> e.expiry == Label(s.cells[e.id].row.value.expiresAt)
    {
      var i :| 0 <= i < |v.listing| && v.listing[i] == e;
      assert order[i] in order;
    }
  }

  lemma SweepReads(s: State, v: SweepVars, choice: Choice)
    requires CellsOk(s) && SweepOk(s, v) && !v.pc.Loop? && !v.pc.MarkStopped? && !v.pc.Vanish?
    ensures
      var out := StepSweep(s.cells, s.now, v, choice);
      out.vars.Some? ==> SweepOk(s, out.vars.value)
  {
    hide Enumerates, RunningIds, StatusesOf;
    match v.pc {
      case Snap => assert forall id :: id in RunningIds(s.cells) ==> Reached(s, id, 1) by { RunningReached(s); }
      case List =>
        if choice.Listed? && Enumerates(choice.order, s.cells) {
          ListingFits(s, choice.order, StepSweep(s.cells, s.now, v, choice).vars.value);
        }
      case Statuses => StatusesFit(s, v);
      case _ =>
    }
  }

  lemma SweepWrites(s: State, v: SweepVars, choice: Choice)
    requires SweepOk(s, v) && (v.pc.Loop? || v.pc.MarkStopped? || v.pc.Vanish?)
    ensures
      var out := StepSweep(s.cells, s.now, v, choice);
      out.vars.Some? ==> SweepOk(s, out.vars.value)
  {
    hide FinishLostStops;
  }

  /** What a sweep reads is true when it reads it. */
  lemma SweepPicture(s: State, v: SweepVars, choice: Choice)
    requires CellsOk(s) && SweepOk(s, v)
    ensures
      var out := StepSweep(s.cells, s.now, v, choice);
      out.vars.Some? ==> SweepOk(s, out.vars.value)
  {
    hide StepSweep, SweepOk, CellsOk;
    if v.pc.Loop? || v.pc.MarkStopped? || v.pc.Vanish? {
      SweepWrites(s, v, choice);
    } else {
      SweepReads(s, v, choice);
    }
  }

  lemma RunningReached(s: State)
    ensures forall id :: id in RunningIds(s.cells) ==> Reached(s, id, 1)
  {
  }

  lemma StatusesFit(s: State, v: SweepVars)
    requires forall e :: e in v.listing ==> e.id in s.cells
    ensures
      var statuses := StatusesOf(s.cells, v.listing);
      && (forall id :: id in statuses ==> Reached(s, id, Stage(statuses[id])))
      && (forall e :: e in v.listing ==> e.id in statuses || s.cells[e.id].row.None?)
  {
  }

  lemma SweepStep(c: Consts, s: State, a: nat, v: SweepVars, choice: Choice)
    requires CellsOk(s) && IndexOk(s) && Owns(s, a) && s.actors[a] == Sweep(v) && SweepOk(s, v)
    ensures StepOk(s, StepActor(c, s, a, s.actors[a], choice), a)
  {
    hide StepSweep, CellsOk, IndexOk, SweepOk, Guarantee;
    var s' := StepActor(c, s, a, s.actors[a], choice);
    SweepEffect(s, s', v, choice);
    SweepPicture(s, v, choice);
    if a in s'.actors {
      SweepStable(s, s', s'.actors[a].vars);
    }
  }

  lemma ActStep(c: Consts, s: State, a: nat, choice: Choice)
    requires CellsOk(s) && IndexOk(s) && Owns(s, a) && ActorOk(s, s.actors[a])
    ensures StepOk(s, Next(c, s, Act(a, choice)), a)
  {
    hide StepActor, StepOk, CellsOk, IndexOk, SweepOk, Reached;
    var actor := s.actors[a];
    match actor {
      case Start(_, _, _) => StartStep(c, s, a, choice);
      case Stop(_, _, _) => StopStep(c, s, a, choice);
      case Sweep(v) => SweepStep(c, s, a, v, choice);
      case CreateCount(_, _) => AdmitStep(c, s, a, choice);
      case CreateRoute(_, _) => AdmitStep(c, s, a, choice);
      case CreateInsert(_, _, _) => InsertStep(c, s, a, choice);
      case CreateReplay(_) => AdmitStep(c, s, a, choice);
      case CreateEnqueue(_, _, _) => EnqueueStep(c, s, a, choice);
      case CreateFail(_) => EnqueueStep(c, s, a, choice);
      case _ => DeleteStep(c, s, a, choice);
    }
  }

  lemma CrashStep(c: Consts, s: State, a: nat, redeliver: bool)
    requires CellsOk(s) && IndexOk(s) && Owns(s, a) && ActorOk(s, s.actors[a])
    ensures StepOk(s, Next(c, s, Crash(a, redeliver)), a)
  {
    hide IndexOk, Guarantee, DataKept;
    var actor := s.actors[a];
    var s' := Next(c, s, Crash(a, redeliver));
    if !redeliver && (actor.Start? || actor.Stop?) {
      CellEffect(s, s', actor.id);
    } else {
      NoEffect(s, s');
    }
  }

  /** Requests arriving, jobs picked up, sweeps scheduled: the actor concerned is the new one. */
  lemma BeginStep(c: Consts, s: State, step: Step)
    requires CellsOk(s) && IndexOk(s) && s.next !in s.actors
    requires step.Tick? || step.CreateBegin? || step.DeleteBegin? || step.SweepBegin?
    ensures StepOk(s, Next(c, s, step), s.next)
  {
    hide IndexOk, CellsOk, Guarantee, DataKept;
    NoEffect(s, Next(c, s, step));
  }

  lemma PickStartStep(c: Consts, s: State, id: Id)
    requires CellsOk(s) && IndexOk(s) && s.next !in s.actors
    ensures StepOk(s, BeginStart(c, s, id), s.next)
  {
    hide IndexOk, Guarantee, DataKept, StartInFlight;
    var s' := BeginStart(c, s, id);
    if Get(s, id).startJob.None? || (c.serial && StartInFlight(s, id)) {
      NoEffect(s, s');
    } else {
      CellEffect(s, s', id);
    }
  }

  lemma PickStopStep(c: Consts, s: State, id: Id)
    requires CellsOk(s) && IndexOk(s) && s.next !in s.actors
    ensures StepOk(s, BeginStop(c, s, id), s.next)
  {
    hide IndexOk, Guarantee, DataKept, StopInFlight;
    var s' := BeginStop(c, s, id);
    if Get(s, id).stopJob.None? || (c.serial && StopInFlight(s, id)) {
      NoEffect(s, s');
    } else {
      CellEffect(s, s', id);
    }
  }

  lemma BoxStep(c: Consts, s: State, step: Step)
    requires CellsOk(s) && IndexOk(s) && s.next !in s.actors
    requires step.BoxDies? || step.BoxExits?
    ensures StepOk(s, Next(c, s, step), s.next)
  {
    hide IndexOk, Guarantee, DataKept;
    if Get(s, step.id).box.Some? {
      CellEffect(s, Next(c, s, step), step.id);
    } else {
      NoEffect(s, Next(c, s, step));
    }
  }

  // ---- The theorems ----

  /** Every step of every actor keeps the invariant and honours the guarantee. */
  lemma StepKeeps(c: Consts, s: State, step: Step)
    requires Inv(s)
    ensures Inv(Next(c, s, step)) && Guarantee(s, Next(c, s, step))
  {
    hide StepActor, StepCrash, BeginCreate, BeginDelete, BeginStart, BeginStop, StepBox;
    hide CellsOk, IndexOk, ActorOk, Guarantee, OthersKept;
    var s' := Next(c, s, step);
    GuaranteeSelf(s);
    match step {
      case Act(a, choice) =>
        if a in s.actors {
          ActStep(c, s, a, choice);
          ActorsStable(s, s', a);
        }
      case Crash(a, redeliver) =>
        if a in s.actors {
          CrashStep(c, s, a, redeliver);
          ActorsStable(s, s', a);
        }
      case PickStart(id) => PickStartStep(c, s, id); ActorsStable(s, s', s.next);
      case PickStop(id) => PickStopStep(c, s, id); ActorsStable(s, s', s.next);
      case BoxDies(_) => BoxStep(c, s, step); ActorsStable(s, s', s.next);
      case BoxExits(_) => BoxStep(c, s, step); ActorsStable(s, s', s.next);
      case _ => BeginStep(c, s, step); ActorsStable(s, s', s.next);
    }
  }

  lemma InitHolds(s: State)
    requires Init(s)
    ensures Inv(s)
  {
  }

  lemma GuaranteeSelf(s: State)
    ensures Guarantee(s, s)
  {
  }

  lemma GuaranteeTrans(s: State, t: State, u: State)
    requires Guarantee(s, t) && Guarantee(t, u)
    ensures Guarantee(s, u)
  {
    forall id | id in s.cells ensures id in u.cells && Grows(s.cells[id], u.cells[id]) {
      assert id in t.cells;
    }
  }

  /** No resurrection, over whole runs: whatever the interleaving, the faults, the duplicates and
      the regime, a row never comes back to an earlier stage, and a row that is stopped or failed
      stays stopped or failed. */
  lemma {:induction false} RunKeeps(c: Consts, s: State, steps: seq<Step>)
    requires Inv(s)
    ensures Inv(Run(c, s, steps)) && Guarantee(s, Run(c, s, steps))
    decreases |steps|
  {
    if steps == [] {
    } else {
      var t := Next(c, s, steps[0]);
      StepKeeps(c, s, steps[0]);
      RunKeeps(c, t, steps[1..]);
      GuaranteeTrans(s, t, Run(c, t, steps[1..]));
    }
  }
}
