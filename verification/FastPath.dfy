/** Without faults, the start and stop jobs alone bring Docker and the database to agreement, whatever
    launches fail and whenever DELETEs arrive; the reconcile sweep is only needed for faults. */
module FastPath {
  import opened Lifecycle
  import opened Protocol
  import opened Invariant
  import opened Locality
  import opened Serial
  import opened Crew
  import opened Care

  /** The step is not a fault: nobody dies, no removal and no enqueue fails, no sweep is needed. */
  ghost predicate Clean(s: State, step: Step) {
    match step
    case Crash(_, _) => false
    case BoxDies(_) => false
    case SweepBegin => false
    case Act(a, choice) =>
      a in s.actors ==>
        (match s.actors[a]
         case CreateEnqueue(_, _, _) => !choice.Fail? && !choice.FailLanded?
         case DeleteEnqueue(_, _) => !choice.Fail? && !choice.FailLanded?
         case Start(_, _, pc) => pc.Undo? || pc.Drop? ==> choice.Ok?
         case Stop(_, _, pc) => pc.Remove? ==> choice.Ok?
         case _ => true)
    case _ => true
  }

  ghost predicate CleanRun(c: Consts, s: State, steps: seq<Step>)
    decreases |steps|
  {
    steps != [] ==> Clean(s, steps[0]) && CleanRun(c, Next(c, s, steps[0]), steps[1..])
  }

  // ---- Who owes what ----

  ghost predicate OneStop(crew: Crew) {
    forall a, b | a in crew && b in crew && a != b :: !(crew[a].Stop? && crew[b].Stop?)
  }

  /** A start run in these positions will still look at the row and discard the container if it is
      not wanted any more. */
  predicate Owing(pc: StartPc) {
    pc.Inspect? || pc.Clear? || pc.Launch? || pc.Probe? || pc.Promote? || pc.Undo? || pc.Drop?
  }

  /** A DELETE that has recorded its intent and has yet to enqueue the stop job. */
  predicate AboutToEnqueue(actor: Actor) {
    actor.DeleteRefresh? || actor.DeleteRoute? || actor.DeleteEnqueue?
  }

  ghost predicate Deleting(crew: Crew) {
    exists a :: a in crew && AboutToEnqueue(crew[a])
  }

  ghost predicate OwedByStart(crew: Crew) {
    exists a :: a in crew && crew[a].Start? && Owing(crew[a].pc)
  }

  ghost predicate OwedByStop(cell: Cell, crew: Crew) {
    cell.stopJob.Some? && forall a :: a in crew && crew[a].Stop? ==> crew[a].spc.Remove?
  }

  ghost predicate OwedByDelete(cell: Cell, crew: Crew) {
    && Matches(cell.row, {Stopping})
    && Deleting(crew)
    && forall a :: a in crew && crew[a].Stop? ==> !crew[a].spc.Mark?
  }

  /** The removal of the container is owed by somebody. */
  ghost predicate Owed(cell: Cell, crew: Crew) {
    OwedByStart(crew) || OwedByStop(cell, crew) || OwedByDelete(cell, crew)
  }

  ghost predicate StartTidy(cell: Cell, pc: StartPc) {
    && (pc.Read? || pc.Expire? || pc.Claim? ==> (Matches(cell.row, STARTABLE) ==> cell.box.None?))
    && (pc.Settle? || pc == Finish(true) ==> cell.box.None?)
    && (pc.Promote? && Matches(cell.row, {Starting}) ==> cell.box.Some?)
  }

  ghost predicate StopTidy(cell: Cell, try: nat, pc: StopPc) {
    && AtLeast(cell, 2)
    && cell.stopJob.Some? && cell.stopJob.value.tries == try
    && (pc.StopFinish? ==> !pc.again && AtLeast(cell, 3))
  }

  ghost predicate MemberTidy(cell: Cell, actor: Actor) {
    match actor
    case Start(_, _, pc) => StartTidy(cell, pc)
    case Stop(_, try, pc) => StopTidy(cell, try, pc)
    case CreateFail(_) => false
    case _ => AboutToEnqueue(actor) ==> AtLeast(cell, 2)
  }

  /** The ownership invariant of one sandbox. */
  ghost predicate Tidy(c: Consts, cell: Cell, crew: Crew) {
    && cell.row.Some?
    && Cared(c, cell, crew)
    && OneStop(crew)
    && (forall a :: a in crew ==> MemberTidy(cell, crew[a]))
    && (!HasStart(crew) && Matches(cell.row, STARTABLE) ==> cell.box.None?)
    && (Matches(cell.row, {Running}) ==> cell.box.Some?)
    && (!HasStart(crew) && cell.startJob.Some? ==> HasTries(c, cell))
    && (!HasStop(crew) && cell.stopJob.Some? ==> cell.stopJob.value.tries < c.maxTries)
    && (Matches(cell.row, {Stopping}) ==> Deleting(crew) || cell.stopJob.Some?)
    && (AtLeast(cell, 2) && cell.box.Some? ==> Owed(cell, crew))
  }

  // ---- Start runs ----

  lemma OwnStepTidy(c: Consts, now: Time, cell: Cell, try: nat, pc: StartPc, choice: Choice)
    requires StartTidy(cell, pc) && StartFits(cell, pc) && cell.row.Some?
    requires pc.Undo? || pc.Drop? ==> choice.Ok?
    requires Matches(cell.row, {Running}) ==> cell.box.Some?
    ensures
      var out := StepStart(c, now, cell, try, pc, choice);
      && out.cell.stopJob == cell.stopJob
      && (!pc.Finish? ==> StartTidy(out.cell, out.pc))
      && (Matches(out.cell.row, {Running}) ==> out.cell.box.Some?)
      && (AtLeast(cell, 2) ==> out.cell.row == cell.row)
      && (AtLeast(cell, 3) ==> AtLeast(out.cell, 3))
      && (pc.Finish? ==> out.cell.row == cell.row)
      && (pc.Finish? ==> out.cell.startJob == if pc.again then cell.startJob else None)
      && (pc.Finish? && Matches(out.cell.row, STARTABLE) && pc.again ==> out.cell.box.None?)
      && (Matches(out.cell.row, {Stopping}) ==> Matches(cell.row, {Stopping}))
      && (AtLeast(out.cell, 2) && out.cell.box.Some? && !(Owing(out.pc) && !pc.Finish?) ==>
            AtLeast(cell, 2) && cell.box.Some? && !Owing(pc) && out.cell.row == cell.row)
  {
  }

  /** Everybody but `a` stays as he is. */
  ghost predicate OthersStay(crew: Crew, crew': Crew, a: nat) {
    && (forall b :: b in crew' && b != a ==> b in crew && crew'[b] == crew[b])
    && (forall b :: b in crew && b != a ==> b in crew')
  }

  lemma MovedOthers(crew: Crew, a: nat, next: Option<Actor>)
    ensures OthersStay(crew, Moved(crew, a, next), a)
    ensures next.Some? ==> a in Moved(crew, a, next) && Moved(crew, a, next)[a] == next.value
    ensures next.None? ==> a !in Moved(crew, a, next)
  {
  }

  lemma TidyStart(c: Consts, now: Time, cell: Cell, crew: Crew, a: nat, choice: Choice)
    requires Tidy(c, cell, crew) && a in crew && crew[a].Start? && UrlFits(cell)
    requires crew[a].pc.Undo? || crew[a].pc.Drop? ==> choice.Ok?
    ensures
      var x := crew[a];
      var out := StepStart(c, now, cell, x.try, x.pc, choice);
      Tidy(c, out.cell, Moved(crew, a, if x.pc.Finish? then None else Some(Start(x.id, x.try, out.pc))))
  {
    hide StepStart, UrlFits, StartFits, StartTidy, Owed, Deleting, Moved, Owing, HasStop, OwedByStart;
    var x := crew[a];
    var out := StepStart(c, now, cell, x.try, x.pc, choice);
    var next := if x.pc.Finish? then None else Some(Start(x.id, x.try, out.pc));
    var crew' := Moved(crew, a, next);
    CareStart(c, now, cell, crew, a, choice);
    MovedOthers(crew, a, next);
    assert StartCare(c, cell, x.try, x.pc) && MemberTidy(cell, x) by { hide Watched, Forlorn; MemberOf(c, cell, crew, a); }
    hide Watched, Forlorn;
    OwnStepTidy(c, now, cell, x.try, x.pc, choice);
    forall b | b in crew' ensures MemberTidy(out.cell, crew'[b]) {
      if b != a {
        OnlyStart(c, cell, crew, a, b);
      }
    }
    StopsKept(crew, crew', a);
    OwedAfterStart(cell, out.cell, crew, crew', a);
    EndsTidy(c, cell, crew, a, out.cell, crew');
  }

  lemma MemberOf(c: Consts, cell: Cell, crew: Crew, a: nat)
    requires Tidy(c, cell, crew) && a in crew && crew[a].Start?
    ensures StartCare(c, cell, crew[a].try, crew[a].pc) && MemberTidy(cell, crew[a])
  {
  }

  lemma OnlyStart(c: Consts, cell: Cell, crew: Crew, a: nat, b: nat)
    requires Tidy(c, cell, crew) && a in crew && crew[a].Start? && b in crew && b != a
    ensures MemberTidy(cell, crew[b]) && !crew[b].Start?
  {
  }

  /** When the run ends, the sandbox no longer needs a start, or holds no container. */
  lemma EndsTidy(c: Consts, cell: Cell, crew: Crew, a: nat, cell': Cell, crew': Crew)
    requires Tidy(c, cell, crew) && a in crew && crew[a].Start? && OthersStay(crew, crew', a)
    requires a in crew' ==> crew'[a].Start?
    requires a !in crew' ==> crew[a].pc.Finish?
    requires crew[a].pc.Finish? && crew[a].pc.again && Matches(cell'.row, STARTABLE) ==> cell'.box.None?
    requires crew[a].pc.Finish? ==> cell'.row == cell.row
    requires crew[a].pc.Finish? ==> cell'.startJob == if crew[a].pc.again then cell.startJob else None
    ensures !HasStart(crew') && Matches(cell'.row, STARTABLE) ==> cell'.box.None?
    ensures !HasStart(crew') && cell'.startJob.Some? ==> HasTries(c, cell')
  {
    MemberOf(c, cell, crew, a);
    if a in crew' {
      assert HasStart(crew');
    }
  }

  lemma OwedAfterStart(cell: Cell, cell': Cell, crew: Crew, crew': Crew, a: nat)
    requires AtLeast(cell, 2) && cell.box.Some? ==> Owed(cell, crew)
    requires OneStart(crew) && a in crew && crew[a].Start? && OthersStay(crew, crew', a)
    requires a in crew' ==> crew'[a].Start?
    requires cell'.stopJob == cell.stopJob
    requires AtLeast(cell', 2) && cell'.box.Some? && !(a in crew' && Owing(crew'[a].pc)) ==>
               AtLeast(cell, 2) && cell.box.Some? && !Owing(crew[a].pc) && cell'.row == cell.row
    ensures AtLeast(cell', 2) && cell'.box.Some? ==> Owed(cell', crew')
  {
    StopsKept(crew, crew', a);
    if AtLeast(cell', 2) && cell'.box.Some? {
      if a in crew' && Owing(crew'[a].pc) {
        assert OwedByStart(crew');
      } else {
        NotOwedByStart(crew, a);
        assert OwedByStop(cell, crew) ==> OwedByStop(cell', crew');
        assert OwedByDelete(cell, crew) ==> OwedByDelete(cell', crew');
      }
    }
  }

  /** The one start run of a crew decides whether the container is owed by a start. */
  lemma NotOwedByStart(crew: Crew, a: nat)
    requires OneStart(crew) && a in crew && crew[a].Start? && !Owing(crew[a].pc)
    ensures !OwedByStart(crew)
  {
  }

  /** If only a start run moves, stops and DELETEs are as before. */
  lemma StopsKept(crew: Crew, crew': Crew, a: nat)
    requires a in crew && crew[a].Start? && OthersStay(crew, crew', a)
    requires a in crew' ==> crew'[a].Start?
    ensures HasStop(crew) <==> HasStop(crew')
    ensures Deleting(crew) <==> Deleting(crew')
  {
    if b :| b in crew && crew[b].Stop? {
      assert b in crew' && crew'[b].Stop?;
    }
    if b :| b in crew && AboutToEnqueue(crew[b]) {
      assert b in crew' && AboutToEnqueue(crew'[b]);
    }
  }

  // ---- Stop runs ----

  lemma OwnStopTidy(c: Consts, cell: Cell, try: nat, pc: StopPc, choice: Choice)
    requires StopTidy(cell, try, pc)
    requires pc.Remove? ==> choice.Ok?
    ensures
      var out := StepStop(c, cell, try, pc, choice);
      && Rely(cell, out.cell) && out.cell.startJob == cell.startJob
      && (!pc.StopFinish? ==> StopTidy(out.cell, try, out.pc))
      && (Matches(out.cell.row, {Stopping}) ==> Matches(cell.row, {Stopping}) && !pc.StopFinish? && !pc.Mark?)
      && (out.cell.box.Some? ==> cell.box == out.cell.box && !pc.Remove?)
      && out.cell.stopJob == (if pc.StopFinish? then None else cell.stopJob)
  {
  }

  lemma TidyStop(c: Consts, cell: Cell, crew: Crew, a: nat, choice: Choice)
    requires Tidy(c, cell, crew) && a in crew && crew[a].Stop?
    requires crew[a].spc.Remove? ==> choice.Ok?
    ensures
      var x := crew[a];
      var out := StepStop(c, cell, x.try, x.spc, choice);
      Tidy(c, out.cell, Moved(crew, a, if x.spc.StopFinish? then None else Some(Stop(x.id, x.try, out.pc))))
  {
    hide StepStop, Owed, Moved, Watched, Forlorn, Owing, HasStart;
    var x := crew[a];
    var out := StepStop(c, cell, x.try, x.spc, choice);
    var next := if x.spc.StopFinish? then None else Some(Stop(x.id, x.try, out.pc));
    var crew' := Moved(crew, a, next);
    assert MemberTidy(cell, x);
    OwnStopTidy(c, cell, x.try, x.spc, choice);
    CareStays(c, cell, out.cell, crew, crew', a, next);
    MovedOthers(crew, a, next);
    forall b | b in crew' ensures MemberTidy(out.cell, crew'[b]) {
      if b != a {
        assert MemberTidy(cell, crew[b]);
      }
    }
    if !x.spc.StopFinish? {
      assert crew'[a].Stop?;
    }
    StartsKept(crew, crew', a);
    DeletesKept(crew, crew', a);
    OwedAfterStop(cell, out.cell, crew, crew', a);
  }

  lemma StartsKept(crew: Crew, crew': Crew, a: nat)
    requires OthersStay(crew, crew', a)
    requires a in crew ==> !crew[a].Start?
    requires a in crew' ==> !crew'[a].Start?
    ensures HasStart(crew) <==> HasStart(crew')
    ensures OwedByStart(crew) <==> OwedByStart(crew')
  {
    if b :| b in crew && crew[b].Start? {
      assert b in crew' && crew'[b].Start?;
    }
    if b :| b in crew && crew[b].Start? && Owing(crew[b].pc) {
      assert b in crew' && crew'[b].Start? && Owing(crew'[b].pc);
    }
  }

  lemma DeletesKept(crew: Crew, crew': Crew, a: nat)
    requires OthersStay(crew, crew', a)
    requires a in crew ==> !AboutToEnqueue(crew[a])
    ensures Deleting(crew) ==> Deleting(crew')
  {
    if b :| b in crew && AboutToEnqueue(crew[b]) {
      assert b in crew' && AboutToEnqueue(crew'[b]);
    }
  }

  lemma StopMembersKept(crew: Crew, crew': Crew, a: nat)
    requires OthersStay(crew, crew', a)
    requires a in crew ==> !crew[a].Stop?
    requires a in crew' ==> !crew'[a].Stop?
    ensures HasStop(crew) <==> HasStop(crew')
  {
    if b :| b in crew && crew[b].Stop? {
      assert b in crew' && crew'[b].Stop?;
    }
  }

  /** Past its removal, a stop run owes nothing: a container still there is a start run's. */
  lemma OwedAfterStop(cell: Cell, cell': Cell, crew: Crew, crew': Crew, a: nat)
    requires cell.box.Some? ==> Owed(cell, crew)
    requires a in crew && crew[a].Stop? && OthersStay(crew, crew', a) && StopTidy(cell, crew[a].try, crew[a].spc)
    requires a in crew' ==> crew'[a].Stop?
    requires cell'.box.Some? ==> cell.box.Some? && !crew[a].spc.Remove?
    ensures cell'.box.Some? ==> Owed(cell', crew')
  {
    StartsKept(crew, crew', a);
    if cell'.box.Some? {
      assert OwedByStart(crew);
    }
  }

  // ---- DELETEs ----

  lemma TidyDelete(c: Consts, cell: Cell, crew: Crew, a: nat, choice: Choice)
    requires Tidy(c, cell, crew) && a in crew && IsDelete(crew[a]) && CellOk(cell)
    requires crew[a].DeleteEnqueue? ==> !choice.Fail? && !choice.FailLanded?
    requires c.maxTries > 0
    ensures
      var out := StepDelete(cell, crew[a], choice);
      Tidy(c, out.cell, Moved(crew, a, out.next))
  {
    hide StepDelete, Owed, Moved, Watched, Forlorn, HasStart, HasStop, Deleting;
    var x := crew[a];
    var out := StepDelete(cell, x, choice);
    var crew' := Moved(crew, a, out.next);
    assert MemberTidy(cell, x);
    DeleteOnCell(cell, x, choice);
    DeleteOnCellOf(cell, 0, x, choice);
    OwnDeleteTidy(cell, x, choice);
    DeleteStays(cell, x, choice);
    CareStays(c, cell, out.cell, crew, crew', a, out.next);
    MovedOthers(crew, a, out.next);
    forall b | b in crew' ensures MemberTidy(out.cell, crew'[b]) {
      if b != a {
        assert MemberTidy(cell, crew[b]);
      }
    }
    StartsKept(crew, crew', a);
    StopMembersKept(crew, crew', a);
    DeleteCaresStop(cell, out.cell, crew, crew', a);
    OwedAfterDelete(c, cell, out.cell, crew, crew', a);
  }

  lemma OwnDeleteTidy(cell: Cell, actor: Actor, choice: Choice)
    requires IsDelete(actor) && (actor.DeleteEnqueue? ==> !choice.Fail? && !choice.FailLanded?)
    ensures
      var out := StepDelete(cell, actor, choice);
      && out.cell.box == cell.box && out.cell.startJob == cell.startJob
      && (cell.stopJob.Some? ==> out.cell.stopJob == cell.stopJob)
      && (out.cell.stopJob != cell.stopJob ==> out.cell.stopJob.Some? && out.cell.stopJob.value.tries == 0)
      && (out.cell.row == cell.row || Matches(out.cell.row, {Stopping}))
      && (out.cell.row != cell.row ==> actor.DeleteCas? && !AtLeast(cell, 2))
      && (out.next.Some? ==> AboutToEnqueue(out.next.value))
      && (actor.DeleteCas? ==> out.next == Some(DeleteRefresh(actor.id)))
      && (out.next.None? ==> out.cell.stopJob.Some? || !Matches(out.cell.row, {Stopping}))
  {
  }

  lemma DeleteCaresStop(cell: Cell, cell': Cell, crew: Crew, crew': Crew, a: nat)
    requires Matches(cell.row, {Stopping}) ==> Deleting(crew) || cell.stopJob.Some?
    requires a in crew && IsDelete(crew[a]) && OthersStay(crew, crew', a)
    requires crew[a].DeleteCas? ==> a in crew' && AboutToEnqueue(crew'[a])
    requires a in crew' && !crew[a].DeleteCas? ==> AboutToEnqueue(crew'[a])
    requires a !in crew' ==> cell'.stopJob.Some? || !Matches(cell'.row, {Stopping})
    requires cell.stopJob.Some? ==> cell'.stopJob.Some?
    ensures Matches(cell'.row, {Stopping}) ==> Deleting(crew') || cell'.stopJob.Some?
    ensures a in crew' ==> Deleting(crew')
  {
    if a in crew' {
      assert AboutToEnqueue(crew'[a]);
    }
  }

  lemma OwedAfterDelete(c: Consts, cell: Cell, cell': Cell, crew: Crew, crew': Crew, a: nat)
    requires AtLeast(cell, 2) && cell.box.Some? ==> Owed(cell, crew)
    requires forall b :: b in crew && crew[b].Stop? ==> StopTidy(cell, crew[b].try, crew[b].spc)
    requires a in crew && IsDelete(crew[a]) && OthersStay(crew, crew', a)
    requires a in crew' ==> IsDelete(crew'[a]) && Deleting(crew')
    requires a !in crew' ==> cell'.stopJob.Some? || !Matches(cell'.row, {Stopping})
    requires cell.stopJob.Some? ==> cell'.stopJob.Some?
    requires cell'.box == cell.box
    requires cell'.row == cell.row || (Matches(cell'.row, {Stopping}) && !AtLeast(cell, 2) && a in crew')
    ensures AtLeast(cell', 2) && cell'.box.Some? ==> Owed(cell', crew')
  {
    StartsKept(crew, crew', a);
    if AtLeast(cell', 2) && cell'.box.Some? {
      if !AtLeast(cell, 2) {
        assert OwedByDelete(cell', crew');
      } else if OwedByStop(cell, crew) {
        assert OwedByStop(cell', crew');
      } else if OwedByDelete(cell, crew) {
        if a in crew' {
          assert OwedByDelete(cell', crew');
        } else {
          assert OwedByStop(cell', crew');
        }
      }
    }
  }

  // ---- Beginnings ----

  lemma TidyEnqueue(c: Consts, cell: Cell, crew: Crew, a: nat, pool: Pool)
    requires c.maxTries > 0 && Tidy(c, cell, crew) && a in crew && crew[a].CreateEnqueue?
    ensures Tidy(c, cell.(startJob := Enqueue(cell.startJob, pool)), crew - {a})
  {
    hide Watched, Forlorn;
    var crew' := crew - {a};
    CareEnqueue(c, cell, crew, a, pool, crew');
    Unchanged(cell, cell.(startJob := Enqueue(cell.startJob, pool)), crew, crew', a);
    forall b | b in crew' ensures MemberTidy(cell.(startJob := Enqueue(cell.startJob, pool)), crew'[b]) {
      assert MemberTidy(cell, crew[b]);
    }
  }

  /** Members that neither start, stop nor delete change nobody's debts. */
  lemma Unchanged(cell: Cell, cell': Cell, crew: Crew, crew': Crew, a: nat)
    requires OthersStay(crew, crew', a) && cell'.row == cell.row && cell'.stopJob == cell.stopJob
    requires a in crew ==> !crew[a].Start? && !crew[a].Stop? && !AboutToEnqueue(crew[a])
    requires a in crew' ==> !crew'[a].Stop? && (crew'[a].Start? ==> !HasStart(crew))
    ensures Owed(cell, crew) ==> Owed(cell', crew')
    ensures Deleting(crew) ==> Deleting(crew')
    ensures HasStop(crew) <==> HasStop(crew')
    ensures HasStart(crew) ==> HasStart(crew')
  {
    DeletesKept(crew, crew', a);
    StopMembersKept(crew, crew', a);
    if b :| b in crew && crew[b].Start? {
      assert b in crew' && crew'[b].Start?;
    }
    if b :| b in crew && crew[b].Start? && Owing(crew[b].pc) {
      assert b in crew' && crew'[b].Start? && Owing(crew'[b].pc);
    }
    assert OwedByStop(cell, crew) ==> OwedByStop(cell', crew');
    assert OwedByDelete(cell, crew) ==> OwedByDelete(cell', crew');
  }

  lemma TidyPickStart(c: Consts, cell: Cell, crew: Crew, a: nat, id: Id)
    requires Tidy(c, cell, crew) && a !in crew && !HasStart(crew) && HasTries(c, cell)
    ensures
      var job := cell.startJob.value.(tries := cell.startJob.value.tries + 1);
      Tidy(c, cell.(startJob := Some(job)), crew[a := Start(id, job.tries, Read)])
  {
    hide Watched, Forlorn;
    var job := cell.startJob.value.(tries := cell.startJob.value.tries + 1);
    var cell' := cell.(startJob := Some(job));
    var crew' := crew[a := Start(id, job.tries, Read)];
    CareBegins(c, cell, crew, a, id);
    Unchanged(cell, cell', crew, crew', a);
    assert crew'[a].Start?;
    forall b | b in crew' ensures MemberTidy(cell', crew'[b]) {
      assert b != a ==> MemberTidy(cell, crew[b]);
    }
  }

  lemma TidyPickStop(c: Consts, cell: Cell, crew: Crew, a: nat, id: Id)
    requires Tidy(c, cell, crew) && a !in crew && !HasStop(crew) && cell.stopJob.Some? && AtLeast(cell, 2)
    ensures
      var job := cell.stopJob.value.(tries := cell.stopJob.value.tries + 1);
      Tidy(c, cell.(stopJob := Some(job)), crew[a := Stop(id, job.tries, Remove)])
  {
    hide Watched, Forlorn;
    var job := cell.stopJob.value.(tries := cell.stopJob.value.tries + 1);
    var cell' := cell.(stopJob := Some(job));
    var next := Some(Stop(id, job.tries, Remove));
    var crew' := crew[a := next.value];
    CareStays(c, cell, cell', crew, crew', a, next);
    StartsKept(crew, crew', a);
    assert crew'[a].Stop?;
    forall b | b in crew' ensures MemberTidy(cell', crew'[b]) {
      assert b != a ==> MemberTidy(cell, crew[b]) && !crew[b].Stop?;
    }
    assert OwedByStop(cell', crew');
  }

  lemma TidyDeleteBegins(c: Consts, cell: Cell, crew: Crew, a: nat, id: Id)
    requires Tidy(c, cell, crew) && a !in crew
    ensures Tidy(c, cell, crew[a := DeleteCas(id)])
  {
    hide Watched, Forlorn;
    var crew' := crew[a := DeleteCas(id)];
    CareStays(c, cell, cell, crew, crew', a, Some(DeleteCas(id)));
    Unchanged(cell, cell, crew, crew', a);
    StartsKept(crew, crew', a);
    forall b | b in crew' ensures MemberTidy(cell, crew'[b]) {
      assert b != a ==> MemberTidy(cell, crew[b]);
    }
  }

  lemma TidyExit(c: Consts, cell: Cell, crew: Crew)
    requires Tidy(c, cell, crew) && cell.box.Some?
    ensures Tidy(c, cell.(box := Some(cell.box.value.(up := false))), crew)
  {
    hide Watched, Forlorn;
    var cell' := cell.(box := Some(cell.box.value.(up := false)));
    CareStays(c, cell, cell', crew, crew, 0, None);
    forall b | b in crew ensures MemberTidy(cell', crew[b]) {
      assert MemberTidy(cell, crew[b]);
    }
    assert Owed(cell, crew) ==> Owed(cell', crew);
  }

  lemma TidyBorn(c: Consts, s: State, a: nat, id: Id)
    requires exists key: Option<Key>, expiresAt: Time, pool: Pool ::
               Get(s, id) == NOBODY.(row := Some(NewRow(key, expiresAt, pool)))
               && CrewOf(s, id) == map[a := CreateEnqueue(key, id, pool)]
    ensures Tidy(c, Get(s, id), CrewOf(s, id))
  {
    hide CrewOf;
    CareBorn(c, s, a, id);
  }

  // ---- ... over every step ----

  ghost predicate AllTidy(c: Consts, s: State) {
    && (forall a :: a in s.actors ==> !s.actors[a].Sweep?)
    && (forall id :: id in s.cells ==> Tidy(c, Get(s, id), CrewOf(s, id)))
  }

  lemma TidyAct(c: Consts, s: State, a: nat, choice: Choice, id: Id)
    requires c.serial && c.maxTries > 0 && Inv(s) && SerialInv(s) && id in s.cells && a in s.actors
    requires Tidy(c, Get(s, id), CrewOf(s, id)) && Clean(s, Act(a, choice)) && !s.actors[a].Sweep?
    ensures
      var s' := Next(c, s, Act(a, choice));
      Tidy(c, Get(s', id), CrewOf(s', id))
  {
    hide Next, CrewOf, Tidy, CellsOk, IndexOk, SweepOk, SweepFits, StartFits, UrlFits, OneRun;
    var x := s.actors[a];
    var s' := Next(c, s, Act(a, choice));
    var crew := CrewOf(s, id);
    assert UrlFits(s.cells[id]);
    CellIsOk(s, id);
    if About(x, id) {
      InCrew(s, a, id);
      NoCreateFail(c, Get(s, id), crew, a);
      if x.Start? {
        StartMoves(c, s, a, choice, id);
        TidyStart(c, s.now, Get(s, id), crew, a, choice);
      } else if x.Stop? {
        StopMoves(c, s, a, choice, id);
        TidyStop(c, Get(s, id), crew, a, choice);
      } else if IsDelete(x) {
        DeleteMoves(c, s, a, choice, id);
        TidyDelete(c, Get(s, id), crew, a, choice);
      } else {
        EnqueueMoves(c, s, a, choice, id);
        if choice.Ok? {
          TidyEnqueue(c, Get(s, id), crew, a, x.pool);
        }
      }
    } else {
      ElsewhereSame(c, s, a, choice, id);
    }
  }

  lemma NoCreateFail(c: Consts, cell: Cell, crew: Crew, a: nat)
    requires Tidy(c, cell, crew) && a in crew
    ensures !crew[a].CreateFail?
  {
    assert MemberTidy(cell, crew[a]);
  }

  lemma TidyBegin(c: Consts, s: State, step: Step, id: Id)
    requires c.serial && Inv(s) && id in s.cells && !step.Act? && Clean(s, step)
    requires Tidy(c, Get(s, id), CrewOf(s, id))
    ensures
      var s' := Next(c, s, step);
      Tidy(c, Get(s', id), CrewOf(s', id))
  {
    hide Next, CrewOf, CellsOk, IndexOk, StartInFlight, StopInFlight, HasStart, HasStop, Tidy;
    var s' := Next(c, s, step);
    var crew := CrewOf(s, id);
    NotInCrew(s, id);
    CrewStart(s, id);
    CellIsOk(s, id);
    TidyTries(c, Get(s, id), crew);
    match step {
      case BoxExits(j) =>
        ExitMoves(c, s, j, id);
        if Get(s', id) != Get(s, id) {
          TidyExit(c, Get(s, id), crew);
        }
      case PickStart(j) =>
        if j == id {
          StartBegins(c, s, id);
          if Get(s', id) != Get(s, id) {
            TidyPickStart(c, Get(s, id), crew, s.next, id);
          }
        } else {
          BeginElse(c, s, step, id);
        }
      case PickStop(j) =>
        if j == id {
          StopBegins(c, s, id);
          if Get(s', id) != Get(s, id) {
            TidyPickStop(c, Get(s, id), crew, s.next, id);
          }
        } else {
          BeginElse(c, s, step, id);
        }
      case DeleteBegin(j) =>
        if j == id {
          DeleteBegins(c, s, id);
          TidyDeleteBegins(c, Get(s, id), crew, s.next, id);
        } else {
          BeginElse(c, s, step, id);
        }
      case _ => BeginElse(c, s, step, id);
    }
  }

  /** A job without a run in flight has tries left. */
  lemma TidyTries(c: Consts, cell: Cell, crew: Crew)
    requires Tidy(c, cell, crew)
    ensures !HasStart(crew) && cell.startJob.Some? ==> HasTries(c, cell)
    ensures !HasStop(crew) && cell.stopJob.Some? ==> cell.stopJob.value.tries < c.maxTries
  {
  }

  lemma ExitMoves(c: Consts, s: State, j: Id, id: Id)
    requires id in s.cells
    ensures
      var s' := Next(c, s, BoxExits(j));
      var cell := Get(s, id);
      && CrewOf(s', id) == CrewOf(s, id)
      && (Get(s', id) == cell
          || (cell.box.Some? && Get(s', id) == cell.(box := Some(cell.box.value.(up := false)))))
  {
  }

  lemma TidyStep(c: Consts, s: State, step: Step)
    requires c.serial && c.maxTries > 0 && Inv(s) && SerialInv(s) && AllTidy(c, s) && Clean(s, step)
    ensures AllTidy(c, Next(c, s, step))
  {
    hide Next, Inv, SerialInv, CrewOf, Tidy;
    var s' := Next(c, s, step);
    forall a | a in s'.actors ensures !s'.actors[a].Sweep? {
      ActorCameFrom(c, s, step, a);
      if a !in s.actors {
        NewSweeps(c, s, step, a);
      }
    }
    forall id | id in s'.cells ensures Tidy(c, Get(s', id), CrewOf(s', id)) {
      if id !in s.cells {
        CrewBegins(c, s, step, id);
        TidyBorn(c, s', step.a, id);
      } else if step.Act? {
        if step.a in s.actors {
          TidyAct(c, s, step.a, step.choice, id);
        } else {
          NoActor(c, s, step.a, step.choice);
        }
      } else {
        TidyBegin(c, s, step, id);
      }
    }
  }

  lemma NewSweeps(c: Consts, s: State, step: Step, a: nat)
    requires Inv(s) && a !in s.actors && a in Next(c, s, step).actors && !step.SweepBegin?
    ensures !Next(c, s, step).actors[a].Sweep?
  {
    hide StepActor, StepCrash, StartInFlight, StopInFlight, CellsOk, IndexOk, ActorOk;
    if step.Act? && step.a in s.actors {
      ActStep(c, s, step.a, step.choice);
    }
    if step.Crash? && step.a in s.actors {
      CrashStep(c, s, step.a, step.redeliver);
    }
  }

  lemma {:induction false} TidyRun(c: Consts, s: State, steps: seq<Step>)
    requires c.serial && c.maxTries > 0 && Inv(s) && SerialInv(s) && AllTidy(c, s) && CleanRun(c, s, steps)
    ensures AllTidy(c, Run(c, s, steps))
    decreases |steps|
  {
    hide Next, Inv, SerialInv, AllTidy, Clean;
    if steps == [] {
    } else {
      StepKeeps(c, s, steps[0]);
      SerialStep(c, s, steps[0]);
      TidyStep(c, s, steps[0]);
      TidyRun(c, Next(c, s, steps[0]), steps[1..]);
    }
  }

  predicate Agrees(cell: Cell) {
    Matches(cell.row, {Running, Stopped, Failed}) && (cell.box.Some? <==> Matches(cell.row, {Running}))
  }

  /** Docker and the database agree: every sandbox is running, stopped or failed, and exactly the
      running ones have a container. */
  ghost predicate Agreement(s: State) {
    forall id :: id in s.cells ==> Agrees(s.cells[id])
  }

  /** Without a crew and without jobs, order and agreement are the same. */
  lemma AgreesIffTidy(c: Consts, cell: Cell)
    requires cell.startJob.None? && cell.stopJob.None?
    ensures Agrees(cell) <==> Tidy(c, cell, map[])
  {
    assert cell.row.Some? ==>
        || Matches(cell.row, STARTABLE)
        || Matches(cell.row, {Running, Stopped, Failed})
        || Matches(cell.row, {Stopping})
      by { if cell.row.Some? { Statuses(cell.row.value.status); } }
  }

  lemma Statuses(status: Status)
    ensures status in STARTABLE || status in {Running, Stopped, Failed} || status in {Stopping}
  {
  }

  lemma QuietCell(s: State, id: Id)
    requires Quiescent(s) && id in s.cells
    ensures s.cells[id].startJob.None? && s.cells[id].stopJob.None? && CrewOf(s, id) == map[]
  {
  }

  /** The fast path alone, without any sweep, ends in agreement: in every serial run without faults,
      but with any launch failures, retries and DELETEs, in any interleaving, once no request or job
      is in flight Docker and the database agree. */
  lemma FastPathAgrees(c: Consts, s: State, steps: seq<Step>)
    requires c.serial && c.maxTries > 0 && Quiescent(s) && Inv(s) && SerialInv(s) && Agreement(s)
    requires CleanRun(c, s, steps) && Quiescent(Run(c, s, steps))
    ensures Agreement(Run(c, s, steps))
  {
    hide Next, Inv, SerialInv, Tidy, CrewOf, Run, CleanRun;
    assert forall a :: a in s.actors ==> !s.actors[a].Sweep?;
    forall id | id in s.cells ensures Tidy(c, Get(s, id), CrewOf(s, id)) {
      QuietCell(s, id);
      AgreesIffTidy(c, s.cells[id]);
    }
    TidyRun(c, s, steps);
    var t := Run(c, s, steps);
    forall id | id in t.cells ensures Agrees(t.cells[id]) {
      QuietCell(t, id);
      AgreesIffTidy(c, t.cells[id]);
      assert Tidy(c, Get(t, id), CrewOf(t, id));
    }
  }

  /** In particular from an empty system. */
  lemma FastPathFromScratch(c: Consts, s0: State, steps: seq<Step>)
    requires c.serial && c.maxTries > 0 && Init(s0) && s0.cells == map[]
    requires CleanRun(c, s0, steps) && Quiescent(Run(c, s0, steps))
    ensures Agreement(Run(c, s0, steps))
  {
    InitCared(c, s0, 0);
    FastPathAgrees(c, s0, steps);
  }
}
