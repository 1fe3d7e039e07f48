/** The serial regime: a job is never run twice at the same time, crashes and redeliveries
    included. A run of `start_sandbox` then owns its launch, and what a sweep concludes about
    running sandboxes is true. */
module Serial {
  import opened Lifecycle
  import opened Protocol
  import opened Invariant
  import opened Locality

  /** From the claim to the settling write, the row is `Starting`, or somebody ended it. */
  predicate Launching(pc: StartPc) {
    !pc.Read? && !pc.Expire? && !pc.Claim? && !pc.Drop? && !pc.Finish?
  }

  ghost predicate Unclaimed(cell: Cell) {
    Matches(cell.row, {Starting}) || AtLeast(cell, 2)
  }

  ghost predicate PortFits(cell: Cell, port: nat) {
    Matches(cell.row, {Starting}) && cell.box.Some? ==> cell.box.value.port == port
  }

  ghost predicate StartFits(cell: Cell, pc: StartPc) {
    && (pc.Claim? ==> Matches(cell.row, STARTABLE) || AtLeast(cell, 2))
    && (Launching(pc) ==> Unclaimed(cell))
    && (pc.Drop? ==> AtLeast(cell, 2))
    && (pc.Probe? ==> PortFits(cell, pc.port))
    && (pc.Promote? ==> PortFits(cell, pc.port))
  }

  /** The URL handed out is that of the sandbox's container. */
  ghost predicate UrlFits(cell: Cell) {
    Matches(cell.row, {Running}) && cell.box.Some? ==> cell.row.value.url == Some(cell.box.value.port)
  }

  /** `Running`, and nothing runs. */
  ghost predicate LostIfRunning(s: State, id: Id) {
    Reached(s, id, 1) && (Matches(s.cells[id].row, {Running}) ==> s.cells[id].box.None?)
  }

  predicate PastList(pc: SweepPc) {
    !pc.Snap? && !pc.List?
  }

  ghost predicate SweepFits(s: State, v: SweepVars) {
    PastList(v.pc) ==> forall id :: id in v.running - Live(v.listing) ==> LostIfRunning(s, id)
  }

  ghost predicate SerialOk(s: State, actor: Actor) {
    match actor
    case Start(id, _, pc) => StartFits(Get(s, id), pc)
    case Sweep(v) => SweepFits(s, v)
    case _ => true
  }

  ghost predicate OneRun(s: State) {
    && (forall a, b | a in s.actors && b in s.actors && a != b ::
          (s.actors[a].Start? && s.actors[b].Start? ==> s.actors[a].id != s.actors[b].id))
    && (forall a, b | a in s.actors && b in s.actors && a != b ::
          (s.actors[a].Stop? && s.actors[b].Stop? ==> s.actors[a].id != s.actors[b].id))
  }

  ghost predicate SerialInv(s: State) {
    && OneRun(s)
    && (forall a :: a in s.actors ==> SerialOk(s, s.actors[a]))
    && (forall id :: id in s.cells ==> UrlFits(s.cells[id]))
  }

  // ---- One sandbox ----

  lemma OwnStepFits(c: Consts, now: Time, cell: Cell, try: nat, pc: StartPc, choice: Choice)
    requires StartFits(cell, pc) && UrlFits(cell) && cell.row.Some?
    ensures
      var out := StepStart(c, now, cell, try, pc, choice);
      StartFits(out.cell, out.pc) && UrlFits(out.cell)
  {
  }

  /** The start run of a sandbox past `Starting` neither makes it run nor gives it a container while
      it runs. */
  lemma OwnStepLate(c: Consts, now: Time, cell: Cell, try: nat, pc: StartPc, choice: Choice)
    requires StartFits(cell, pc) && AtLeast(cell, 1)
    requires Matches(cell.row, {Running}) ==> cell.box.None?
    ensures
      var out := StepStart(c, now, cell, try, pc, choice);
      AtLeast(out.cell, 1) && (Matches(out.cell.row, {Running}) ==> out.cell.box.None?)
  {
  }

  lemma RelyFits(cell: Cell, cell': Cell, pc: StartPc)
    requires StartFits(cell, pc) && Rely(cell, cell') && cell.row.Some?
    ensures StartFits(cell', pc)
  {
  }

  // ---- At most one run of a job ----

  lemma OneRunStep(c: Consts, s: State, step: Step)
    requires c.serial && Inv(s) && OneRun(s)
    ensures OneRun(Next(c, s, step))
  {
    hide Next, Inv;
    var s' := Next(c, s, step);
    forall a, b | a in s'.actors && b in s'.actors && a != b
      ensures s'.actors[a].Start? && s'.actors[b].Start? ==> s'.actors[a].id != s'.actors[b].id
      ensures s'.actors[a].Stop? && s'.actors[b].Stop? ==> s'.actors[a].id != s'.actors[b].id
    {
      ActorCameFrom(c, s, step, a);
      ActorCameFrom(c, s, step, b);
    }
  }

  // ---- Each step ----

  /** What a step does to a sandbox that has reached `Running`. */
  lemma LostStays(c: Consts, s: State, step: Step, id: Id)
    requires Inv(s) && SerialInv(s) && LostIfRunning(s, id)
    ensures LostIfRunning(Next(c, s, step), id)
  {
    hide Next, CellsOk, IndexOk, ActorOk, OneRun, UrlFits;
    var s' := Next(c, s, step);
    StepKeeps(c, s, step);
    StepOnCell(c, s, step, id);
    if IsStartStep(s, step, id) {
      OwnCell(c, s, step.a, step.choice);
      var x := s.actors[step.a];
      assert SerialOk(s, x);
      OwnStepLate(c, s.now, Get(s, id), x.try, x.pc, step.choice);
    }
  }

  lemma OrderedIsLive(order: seq<Id>, cells: Cells, id: Id)
    requires Enumerates(order, cells)
    ensures id in order <==> id in Live(Listing(order, cells))
  {
    var listing := Listing(order, cells);
    if id in order {
      var i :| 0 <= i < |order| && order[i] == id;
      assert listing[i] in listing;
    }
  }

  /** Every container there is gets listed. */
  lemma ListedAll(order: seq<Id>, s: State, id: Id)
    requires Enumerates(order, s.cells) && Reached(s, id, 1) && id !in Live(Listing(order, s.cells))
    ensures LostIfRunning(s, id)
  {
    OrderedIsLive(order, s.cells, id);
  }

  /** The snapshot of running rows is older than the listing, so whatever is in the one and not in
      the other is lost. */
  lemma PictureFits(s: State, v: SweepVars, choice: Choice)
    requires SweepOk(s, v) && SweepFits(s, v)
    ensures
      var out := StepSweep(s.cells, s.now, v, choice);
      out.vars.Some? ==> SweepFits(s, out.vars.value)
  {
    hide Enumerates, RunningIds, StatusesOf, FinishLostStops, MustGo, ListingOk;
    var out := StepSweep(s.cells, s.now, v, choice);
    if v.pc.List? && choice.Listed? && Enumerates(choice.order, s.cells) {
      forall id | id in v.running - Live(out.vars.value.listing) ensures LostIfRunning(s, id) {
        assert Reached(s, id, 1);
        ListedAll(choice.order, s, id);
      }
    }
  }

  lemma SweepFitsStays(c: Consts, s: State, step: Step, v: SweepVars)
    requires Inv(s) && SerialInv(s) && SweepFits(s, v)
    ensures SweepFits(Next(c, s, step), v)
  {
    hide Next, Inv, SerialInv, LostIfRunning;
    var s' := Next(c, s, step);
    forall id | PastList(v.pc) && id in v.running - Live(v.listing) ensures LostIfRunning(s', id) {
      LostStays(c, s, step, id);
    }
  }

  lemma SerialOkStep(c: Consts, s: State, step: Step, b: nat)
    requires c.serial && Inv(s) && SerialInv(s) && b in Next(c, s, step).actors
    ensures SerialOk(Next(c, s, step), Next(c, s, step).actors[b])
  {
    hide Next, CellsOk, IndexOk, SweepOk, SweepFits;
    var s' := Next(c, s, step);
    var x := s'.actors[b];
    ActorCameFrom(c, s, step, b);
    if b !in s.actors {
      NewSweepFits(s');
    } else {
      assert ActorOk(s, s.actors[b]) && SerialOk(s, s.actors[b]);
      if x.Start? {
        StepOnCell(c, s, step, x.id);
        if IsStartStep(s, step, x.id) {
          assert step.a == b;
          OwnCell(c, s, b, step.choice);
          OwnStepFits(c, s.now, Get(s, x.id), s.actors[b].try, s.actors[b].pc, step.choice);
        } else {
          RelyFits(Get(s, x.id), Get(s', x.id), x.pc);
        }
      } else if x.Sweep? {
        if s.actors[b] == x {
        } else {
          SweepOwnStep(c, s, b, step.choice);
          PictureFits(s, s.actors[b].vars, step.choice);
        }
        SweepFitsStays(c, s, step, x.vars);
      }
    }
  }

  lemma NewSweepFits(s: State)
    ensures SweepFits(s, NEW_SWEEP)
  {
  }

  lemma UrlStep(c: Consts, s: State, step: Step, id: Id)
    requires Inv(s) && SerialInv(s) && id in Next(c, s, step).cells
    ensures UrlFits(Next(c, s, step).cells[id])
  {
    hide Next, CellsOk, IndexOk, SweepOk, SweepFits;
    if id in s.cells {
      StepOnCell(c, s, step, id);
      if IsStartStep(s, step, id) {
        OwnCell(c, s, step.a, step.choice);
        var x := s.actors[step.a];
        assert SerialOk(s, x) && ActorOk(s, x);
        OwnStepFits(c, s.now, Get(s, id), x.try, x.pc, step.choice);
      }
    } else {
      NewCell(c, s, step, id);
    }
  }

  // ---- The theorems ----

  lemma SerialStep(c: Consts, s: State, step: Step)
    requires c.serial && Inv(s) && SerialInv(s)
    ensures SerialInv(Next(c, s, step))
  {
    hide Next, Inv, SerialOk, UrlFits;
    var s' := Next(c, s, step);
    OneRunStep(c, s, step);
    forall b | b in s'.actors ensures SerialOk(s', s'.actors[b]) {
      SerialOkStep(c, s, step, b);
    }
    forall id | id in s'.cells ensures UrlFits(s'.cells[id]) {
      UrlStep(c, s, step, id);
    }
  }

  lemma {:induction false} SerialRun(c: Consts, s: State, steps: seq<Step>)
    requires c.serial && Inv(s) && SerialInv(s)
    ensures Inv(Run(c, s, steps)) && SerialInv(Run(c, s, steps))
    decreases |steps|
  {
    hide Next, Inv, SerialInv;
    if steps == [] {
    } else {
      StepKeeps(c, s, steps[0]);
      SerialStep(c, s, steps[0]);
      SerialRun(c, Next(c, s, steps[0]), steps[1..]);
    }
  }
}
