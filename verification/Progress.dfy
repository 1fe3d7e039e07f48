/** What one successful sweep achieves while everything else goes on around it. */
module Progress {
  import opened Lifecycle
  import opened Protocol
  import opened Invariant
  import opened Locality
  import opened Serial

  // ---- Stops are finished ----

  /** Entries of the listing that the sweep has dealt with. */
  predicate Handled(v: SweepVars, k: nat) {
    k < |v.listing| && (v.pc.Vanish? || ((v.pc.Loop? || v.pc.MarkStopped?) && k < v.i))
  }

  /** Where a sweep stands with a sandbox that was `Stopping` when it began. */
  ghost predicate StopDue(s: State, v: SweepVars, id: Id) {
    && Reached(s, id, 2)
    && (PastRead(v.pc) && id in Live(v.listing) ==> id in v.statuses && Stage(v.statuses[id]) >= 2)
    && (forall k: nat :: Handled(v, k) && v.listing[k].id == id ==> Reached(s, id, 3))
  }

  lemma StopDueStays(s: State, s': State, v: SweepVars, id: Id)
    requires Guarantee(s, s') && StopDue(s, v, id)
    ensures StopDue(s', v, id)
  {
  }

  ghost predicate OwnStep(s: State, s': State, v: SweepVars, choice: Choice, v': SweepVars) {
    var out := StepSweep(s.cells, s.now, v, choice);
    s'.cells == out.cells && out.vars == Some(v')
  }

  lemma StopDueReads(s: State, s': State, v: SweepVars, choice: Choice, v': SweepVars, id: Id)
    requires StopDue(s, v, id) && Guarantee(s, s') && OwnStep(s, s', v, choice, v')
    requires !v.pc.Loop? && !v.pc.MarkStopped? && !v.pc.Vanish?
    ensures StopDue(s', v', id)
  {
    hide Enumerates, RunningIds;
  }

  lemma StopDueLoops(s: State, s': State, v: SweepVars, choice: Choice, v': SweepVars, id: Id)
    requires StopDue(s, v, id) && Guarantee(s, s') && OwnStep(s, s', v, choice, v') && v.pc.Loop?
    ensures StopDue(s', v', id)
  {
    assert Reached(s', id, 2);
    forall k: nat | Handled(v', k) && v'.listing[k].id == id ensures Reached(s', id, 3) {
      assert v.listing[k] in v.listing;
      if Handled(v, k) {
        assert Reached(s, id, 3);
      }
    }
  }

  lemma StopDueWrites(s: State, s': State, v: SweepVars, choice: Choice, v': SweepVars, id: Id)
    requires StopDue(s, v, id) && Guarantee(s, s') && OwnStep(s, s', v, choice, v') && (v.pc.MarkStopped? || v.pc.Vanish?)
    ensures StopDue(s', v', id)
  {
    hide FinishLostStops;
    assert Reached(s', id, 2);
    forall k: nat | Handled(v', k) && v'.listing[k].id == id ensures Reached(s', id, 3) {
      if Handled(v, k) {
        assert Reached(s, id, 3);
      }
    }
  }

  /** The sweep's own step on what it owes. */
  lemma StopDueStep(s: State, s': State, v: SweepVars, choice: Choice, id: Id)
    requires SweepOk(s, v) && StopDue(s, v, id) && Guarantee(s, s')
    requires
      var out := StepSweep(s.cells, s.now, v, choice);
      s'.cells == out.cells && out.vars.Some?
    ensures StopDue(s', StepSweep(s.cells, s.now, v, choice).vars.value, id)
  {
    hide StepSweep, StopDue, SweepOk;
    var v' := StepSweep(s.cells, s.now, v, choice).vars.value;
    if v.pc.Loop? {
      StopDueLoops(s, s', v, choice, v', id);
    } else if v.pc.MarkStopped? || v.pc.Vanish? {
      StopDueWrites(s, s', v, choice, v', id);
    } else {
      StopDueReads(s, s', v, choice, v', id);
    }
  }

  lemma StopDueEnds(s: State, s': State, v: SweepVars, choice: Choice, id: Id)
    requires SweepOk(s, v) && StopDue(s, v, id) && Guarantee(s, s') && v.pc == Vanish({})
    requires s'.cells == StepSweep(s.cells, s.now, v, choice).cells
    ensures Reached(s', id, 3)
  {
    if id in Live(v.listing) {
      var e :| e in v.listing && e.id == id;
      var k :| 0 <= k < |v.listing| && v.listing[k] == e;
      assert Handled(v, k);
      assert Reached(s, id, 3);
    }
  }

  ghost predicate SweepDue(s: State, a: nat, id: Id) {
    a in s.actors ==> s.actors[a].Sweep? && StopDue(s, s.actors[a].vars, id)
  }

  lemma SweepDueStep(c: Consts, s: State, step: Step, a: nat, id: Id)
    requires Inv(s) && a < s.next && SweepDue(s, a, id) && Reached(s, id, 2)
    ensures SweepDue(Next(c, s, step), a, id) && Reached(Next(c, s, step), id, 2)
  {
    hide Next, SweepOk, StopDue, CellsOk, IndexOk;
    var s' := Next(c, s, step);
    StepKeeps(c, s, step);
    if a in s'.actors {
      ActorCameFrom(c, s, step, a);
      var v := s.actors[a].vars;
      if step.Act? && step.a == a {
        SweepOwnStep(c, s, a, step.choice);
        assert ActorOk(s, s.actors[a]);
        StopDueStep(s, s', v, step.choice, id);
      } else {
        OtherActorSame(c, s, step, a);
        StopDueStays(s, s', v, id);
      }
    }
  }

  lemma OtherActorSame(c: Consts, s: State, step: Step, a: nat)
    requires Inv(s) && a in s.actors && a in Next(c, s, step).actors && !(step.Act? && step.a == a)
    ensures Next(c, s, step).actors[a] == s.actors[a]
  {
    ActorCameFrom(c, s, step, a);
  }

  lemma {:induction false} SweepDueRun(c: Consts, s: State, steps: seq<Step>, a: nat, id: Id)
    requires Inv(s) && a < s.next && SweepDue(s, a, id) && Reached(s, id, 2)
    ensures SweepDue(Run(c, s, steps), a, id)
    decreases |steps|
  {
    hide Next, Inv, SweepDue, Reached;
    if steps == [] {
    } else {
      StepKeeps(c, s, steps[0]);
      NextGrows(c, s, steps[0]);
      SweepDueStep(c, s, steps[0], a, id);
      SweepDueRun(c, Next(c, s, steps[0]), steps[1..], a, id);
    }
  }

  lemma NextGrows(c: Consts, s: State, step: Step)
    requires Inv(s)
    ensures s.next <= Next(c, s, step).next
  {
    StepKeeps(c, s, step);
  }

  /** Whatever everybody else does meanwhile, and under either delivery regime: a sandbox that is
      `Stopping` when a sweep begins is stopped or failed when that sweep completes. */
  lemma StopsAreFinished(c: Consts, s: State, a: nat, id: Id, steps: seq<Step>, choice: Choice)
    requires Inv(s) && a in s.actors && s.actors[a] == Sweep(NEW_SWEEP)
    requires Matches(Get(s, id).row, {Stopping})
    requires
      var t := Run(c, s, steps);
      a in t.actors && t.actors[a].Sweep? && t.actors[a].vars.pc == Vanish({})
    ensures
      var t' := Next(c, Run(c, s, steps), Act(a, choice));
      a !in t'.actors && AtLeast(Get(t', id), 3)
  {
    hide Next, Inv, Guarantee, ActorsOk;
    assert a < s.next by { OwnsHandle(s, a); }
    SweepDueRun(c, s, steps, a, id);
    RunKeeps(c, s, steps);
    var t := Run(c, s, steps);
    StepKeeps(c, t, Act(a, choice));
    SweepOwnStep(c, t, a, choice);
    assert ActorOk(t, t.actors[a]) by { OwnsHandle(t, a); }
    StopDueEnds(t, Next(c, t, Act(a, choice)), t.actors[a].vars, choice, id);
  }

  lemma OwnsHandle(s: State, a: nat)
    requires Inv(s) && a in s.actors
    ensures a < s.next && ActorOk(s, s.actors[a])
  {
  }

  // ---- Lost containers are noticed ----

  /** Where a sweep stands with a sandbox that was running without a container when it began. */
  ghost predicate LossDue(s: State, v: SweepVars, id: Id) {
    && LostIfRunning(s, id)
    && (Matches(s.cells[id].row, {Running}) ==>
          && (!v.pc.Snap? ==> id in v.running)
          && (PastList(v.pc) ==> id !in Live(v.listing))
          && (v.pc.Vanish? ==> id in v.pc.todo))
  }

  lemma StillRunning(s: State, s': State, id: Id)
    requires Guarantee(s, s') && Reached(s, id, 1) && Matches(Get(s', id).row, {Running})
    ensures Matches(Get(s, id).row, {Running})
  {
  }

  lemma LossDueReads(s: State, s': State, v: SweepVars, choice: Choice, v': SweepVars, id: Id)
    requires LossDue(s, v, id) && Guarantee(s, s') && LostIfRunning(s', id) && OwnStep(s, s', v, choice, v')
    requires v.pc.Snap? || v.pc.List? || v.pc.Statuses? || v.pc.Clock?
    ensures LossDue(s', v', id)
  {
    hide Enumerates, StatusesOf;
    if Matches(s'.cells[id].row, {Running}) {
      StillRunning(s, s', id);
      if v.pc.List? && choice.Listed? && Enumerates(choice.order, s.cells) {
        LostIsNotListed(choice.order, s.cells, id);
      }
    }
  }

  lemma LossDueWrites(s: State, s': State, v: SweepVars, choice: Choice, v': SweepVars, id: Id)
    requires LossDue(s, v, id) && Guarantee(s, s') && LostIfRunning(s', id) && OwnStep(s, s', v, choice, v')
    requires v.pc.Loop? || v.pc.MarkStopped? || v.pc.Vanish?
    ensures LossDue(s', v', id)
  {
    hide FinishLostStops, MustGo;
    if Matches(s'.cells[id].row, {Running}) {
      StillRunning(s, s', id);
    }
  }

  lemma LossDueStep(s: State, s': State, v: SweepVars, choice: Choice, id: Id)
    requires LossDue(s, v, id) && Guarantee(s, s') && LostIfRunning(s', id)
    requires
      var out := StepSweep(s.cells, s.now, v, choice);
      s'.cells == out.cells && out.vars.Some?
    ensures LossDue(s', StepSweep(s.cells, s.now, v, choice).vars.value, id)
  {
    hide StepSweep, LossDue;
    var v' := StepSweep(s.cells, s.now, v, choice).vars.value;
    if v.pc.Loop? || v.pc.MarkStopped? || v.pc.Vanish? {
      LossDueWrites(s, s', v, choice, v', id);
    } else {
      LossDueReads(s, s', v, choice, v', id);
    }
  }

  lemma LostIsNotListed(order: seq<Id>, cells: Cells, id: Id)
    requires Enumerates(order, cells) && Look(cells, id).box.None?
    ensures id !in Live(Listing(order, cells))
  {
    OrderedIsLive(order, cells, id);
  }

  lemma LossDueStays(s: State, s': State, v: SweepVars, id: Id)
    requires LossDue(s, v, id) && Guarantee(s, s') && LostIfRunning(s', id)
    ensures LossDue(s', v, id)
  {
    if Matches(s'.cells[id].row, {Running}) {
      StillRunning(s, s', id);
    }
  }

  ghost predicate SweepLossDue(s: State, a: nat, id: Id) {
    a in s.actors ==> s.actors[a].Sweep? && LossDue(s, s.actors[a].vars, id)
  }

  lemma SweepLossDueStep(c: Consts, s: State, step: Step, a: nat, id: Id)
    requires Inv(s) && SerialInv(s) && a < s.next && SweepLossDue(s, a, id) && LostIfRunning(s, id)
    ensures SweepLossDue(Next(c, s, step), a, id) && LostIfRunning(Next(c, s, step), id)
  {
    hide Next, SweepOk, LossDue, LostIfRunning, CellsOk, IndexOk, SerialInv;
    var s' := Next(c, s, step);
    StepKeeps(c, s, step);
    LostStays(c, s, step, id);
    if a in s'.actors {
      ActorCameFrom(c, s, step, a);
      var v := s.actors[a].vars;
      if step.Act? && step.a == a {
        SweepOwnStep(c, s, a, step.choice);
        assert ActorOk(s, s.actors[a]);
        LossDueStep(s, s', v, step.choice, id);
      } else {
        OtherActorSame(c, s, step, a);
        LossDueStays(s, s', v, id);
      }
    }
  }

  lemma {:induction false} SweepLossDueRun(c: Consts, s: State, steps: seq<Step>, a: nat, id: Id)
    requires c.serial && Inv(s) && SerialInv(s) && a < s.next && SweepLossDue(s, a, id) && LostIfRunning(s, id)
    ensures SweepLossDue(Run(c, s, steps), a, id)
    decreases |steps|
  {
    hide Next, Inv, SerialInv, SweepLossDue, LostIfRunning;
    if steps == [] {
    } else {
      StepKeeps(c, s, steps[0]);
      NextGrows(c, s, steps[0]);
      SerialStep(c, s, steps[0]);
      SweepLossDueStep(c, s, steps[0], a, id);
      SweepLossDueRun(c, Next(c, s, steps[0]), steps[1..], a, id);
    }
  }

  /** In the serial regime, whatever everybody else does meanwhile: a sandbox that is running
      without a container when a sweep begins is no longer running when that sweep completes. */
  lemma LossesAreNoticed(c: Consts, s: State, a: nat, id: Id, steps: seq<Step>, choice: Choice)
    requires c.serial && Inv(s) && SerialInv(s) && a in s.actors && s.actors[a] == Sweep(NEW_SWEEP)
    requires Matches(Get(s, id).row, {Running}) && Get(s, id).box.None?
    requires
      var t := Run(c, s, steps);
      a in t.actors && t.actors[a].Sweep? && t.actors[a].vars.pc == Vanish({})
    ensures
      var t' := Next(c, Run(c, s, steps), Act(a, choice));
      a !in t'.actors && AtLeast(Get(t', id), 2)
  {
    hide Next, Inv, SerialInv, Guarantee;
    OwnsHandle(s, a);
    SweepLossDueRun(c, s, steps, a, id);
    RunKeeps(c, s, steps);
    SerialRun(c, s, steps);
    var t := Run(c, s, steps);
    var t' := Next(c, t, Act(a, choice));
    SweepOwnStep(c, t, a, choice);
    LostStays(c, t, Act(a, choice), id);
    StepKeeps(c, t, Act(a, choice));
    NotRunningStays(t, t', id);
  }

  lemma NotRunningStays(s: State, s': State, id: Id)
    requires Guarantee(s, s') && Reached(s, id, 1) && !Matches(s.cells[id].row, {Running})
    ensures AtLeast(Get(s', id), 2)
  {
  }

  // ---- Lifetimes are enforced ----

  /** Where a sweep stands with a running sandbox whose time was over when it began. */
  ghost predicate ExpiryDue(s: State, v: SweepVars, id: Id) {
    && Reached(s, id, 1) && Label(s.cells[id].row.value.expiresAt) <= s.now
    && (Matches(s.cells[id].row, {Running}) ==>
          && (!v.pc.Snap? ==> id in v.running)
          && (v.pc.Loop? || v.pc.MarkStopped? || v.pc.Vanish? ==> Label(s.cells[id].row.value.expiresAt) <= v.at)
          && (v.pc.Vanish? ==> id in v.pc.todo || id in Live(v.listing))
          && (forall k: nat :: Handled(v, k) ==> v.listing[k].id != id))
  }

  lemma ExpiryDueStays(s: State, s': State, v: SweepVars, id: Id)
    requires Guarantee(s, s') && ExpiryDue(s, v, id)
    ensures ExpiryDue(s', v, id)
  {
    if Matches(s'.cells[id].row, {Running}) {
      StillRunning(s, s', id);
    }
  }

  lemma ExpiryDueReads(s: State, s': State, v: SweepVars, choice: Choice, v': SweepVars, id: Id)
    requires ExpiryDue(s, v, id) && Guarantee(s, s') && OwnStep(s, s', v, choice, v')
    requires v.pc.Snap? || v.pc.List? || v.pc.Statuses? || v.pc.Clock?
    ensures ExpiryDue(s', v', id)
  {
    hide Enumerates, StatusesOf;
    if Matches(s'.cells[id].row, {Running}) {
      StillRunning(s, s', id);
    }
  }

  /** A listed container of a running sandbox past its time is not skipped. */
  lemma ExpiryDueLoops(s: State, s': State, v: SweepVars, choice: Choice, v': SweepVars, id: Id)
    requires ListingOk(s, v) && ExpiryDue(s, v, id) && Guarantee(s, s') && OwnStep(s, s', v, choice, v') && v.pc.Loop?
    ensures ExpiryDue(s', v', id)
  {
    hide Orphaned;
    if Matches(s'.cells[id].row, {Running}) {
      StillRunning(s, s', id);
      forall k: nat | Handled(v', k) ensures v'.listing[k].id != id {
        assert v.listing[k] in v.listing;
      }
    }
  }

  /** When its row has been marked, the sandbox is not running any more. */
  lemma ExpiryDueWrites(s: State, s': State, v: SweepVars, choice: Choice, v': SweepVars, id: Id)
    requires ExpiryDue(s, v, id) && Guarantee(s, s') && OwnStep(s, s', v, choice, v')
    requires v.pc.MarkStopped? || v.pc.Vanish?
    ensures ExpiryDue(s', v', id)
  {
    hide FinishLostStops, Live;
    if Matches(s'.cells[id].row, {Running}) {
      StillRunning(s, s', id);
    }
  }

  lemma ExpiryDueStep(s: State, s': State, v: SweepVars, choice: Choice, id: Id)
    requires ListingOk(s, v) && ExpiryDue(s, v, id) && Guarantee(s, s')
    requires
      var out := StepSweep(s.cells, s.now, v, choice);
      s'.cells == out.cells && out.vars.Some?
    ensures ExpiryDue(s', StepSweep(s.cells, s.now, v, choice).vars.value, id)
  {
    hide StepSweep, ExpiryDue, ListingOk, Guarantee;
    var v' := StepSweep(s.cells, s.now, v, choice).vars.value;
    if v.pc.Loop? {
      ExpiryDueLoops(s, s', v, choice, v', id);
    } else if v.pc.MarkStopped? || v.pc.Vanish? {
      ExpiryDueWrites(s, s', v, choice, v', id);
    } else {
      ExpiryDueReads(s, s', v, choice, v', id);
    }
  }

  /** With nothing left to fail and everything listed handled, it is not running any more. */
  lemma ExpiryDueEnds(s: State, v: SweepVars, id: Id)
    requires ExpiryDue(s, v, id) && v.pc == Vanish({})
    ensures AtLeast(s.cells[id], 2)
  {
    if id in Live(v.listing) {
      var e :| e in v.listing && e.id == id;
      var k :| 0 <= k < |v.listing| && v.listing[k] == e;
      assert Handled(v, k);
    }
  }

  ghost predicate SweepExpiryDue(s: State, a: nat, id: Id) {
    a in s.actors ==> s.actors[a].Sweep? && ExpiryDue(s, s.actors[a].vars, id)
  }

  lemma SweepExpiryDueStep(c: Consts, s: State, step: Step, a: nat, id: Id)
    requires Inv(s) && a < s.next && SweepExpiryDue(s, a, id)
    ensures SweepExpiryDue(Next(c, s, step), a, id)
  {
    hide Next, ListingOk, ExpiryDue, CellsOk, IndexOk;
    var s' := Next(c, s, step);
    StepKeeps(c, s, step);
    if a in s'.actors {
      ActorCameFrom(c, s, step, a);
      var v := s.actors[a].vars;
      if step.Act? && step.a == a {
        SweepOwnStep(c, s, a, step.choice);
        assert ActorOk(s, s.actors[a]);
        ExpiryDueStep(s, s', v, step.choice, id);
      } else {
        OtherActorSame(c, s, step, a);
        ExpiryDueStays(s, s', v, id);
      }
    }
  }

  lemma {:induction false} SweepExpiryDueRun(c: Consts, s: State, steps: seq<Step>, a: nat, id: Id)
    requires Inv(s) && a < s.next && SweepExpiryDue(s, a, id)
    ensures SweepExpiryDue(Run(c, s, steps), a, id)
    decreases |steps|
  {
    hide Next, Inv, SweepExpiryDue;
    if steps == [] {
    } else {
      StepKeeps(c, s, steps[0]);
      NextGrows(c, s, steps[0]);
      SweepExpiryDueStep(c, s, steps[0], a, id);
      SweepExpiryDueRun(c, Next(c, s, steps[0]), steps[1..], a, id);
    }
  }

  /** Whatever everybody else does meanwhile, and under either delivery regime: a sandbox that is
      running past the time in its label when a sweep begins is not running any more when that sweep
      completes. */
  lemma LifetimesAreEnforced(c: Consts, s: State, a: nat, id: Id, steps: seq<Step>, choice: Choice)
    requires Inv(s) && a in s.actors && s.actors[a] == Sweep(NEW_SWEEP)
    requires Matches(Get(s, id).row, {Running}) && Label(Get(s, id).row.value.expiresAt) <= s.now
    requires
      var t := Run(c, s, steps);
      a in t.actors && t.actors[a].Sweep? && t.actors[a].vars.pc == Vanish({})
    ensures
      var t' := Next(c, Run(c, s, steps), Act(a, choice));
      a !in t'.actors && AtLeast(Get(t', id), 2)
  {
    hide Next, Inv, Guarantee, ExpiryDue;
    assert SweepExpiryDue(s, a, id) by { NewExpiryDue(s, id); }
    OwnsHandle(s, a);
    SweepExpiryDueRun(c, s, steps, a, id);
    RunKeeps(c, s, steps);
    var t := Run(c, s, steps);
    ExpiryDueEnds(t, t.actors[a].vars, id) by { KnownWhenDue(t, t.actors[a].vars, id); }
    KnownWhenDue(t, t.actors[a].vars, id);
    StepKeeps(c, t, Act(a, choice));
    SweepOwnStep(c, t, a, choice);
    LateStays(t, Next(c, t, Act(a, choice)), id);
  }

  lemma NewExpiryDue(s: State, id: Id)
    requires Matches(Get(s, id).row, {Running}) && Label(Get(s, id).row.value.expiresAt) <= s.now
    ensures ExpiryDue(s, NEW_SWEEP, id)
  {
  }

  lemma KnownWhenDue(s: State, v: SweepVars, id: Id)
    requires ExpiryDue(s, v, id)
    ensures id in s.cells
  {
  }

  lemma LateStays(s: State, s': State, id: Id)
    requires Guarantee(s, s') && Reached(s, id, 2)
    ensures AtLeast(Get(s', id), 2)
  {
  }

  // ---- Leaks are removed ----

  /** No container of `id` is wanted, and no start run is past its read, so none will be made. */
  ghost predicate Leaked(s: State, id: Id) {
    && id in s.cells && (s.cells[id].row.None? || AtLeast(s.cells[id], 2))
    && (forall b :: b in s.actors && IsStart(s.actors[b], id) ==>
          s.actors[b].pc.Read? || s.actors[b].pc.Finish?)
  }

  /** Nobody adds a container to such a sandbox. */
  ghost predicate NoNewBox(s: State, s': State, id: Id) {
    Get(s, id).box.None? ==> Get(s', id).box.None?
  }

  lemma LateStart(c: Consts, now: Time, cell: Cell, try: nat, pc: StartPc, choice: Choice)
    requires cell.row.None? || AtLeast(cell, 2)
    requires pc.Read? || pc.Finish?
    ensures
      var out := StepStart(c, now, cell, try, pc, choice);
      (out.pc.Read? || out.pc.Finish?) && out.cell.box == cell.box
  {
  }

  lemma LeakedStep(c: Consts, s: State, step: Step, id: Id)
    requires Inv(s) && Leaked(s, id)
    ensures Leaked(Next(c, s, step), id) && NoNewBox(s, Next(c, s, step), id)
  {
    hide Next, Inv;
    var s' := Next(c, s, step);
    StepKeeps(c, s, step);
    StepOnCell(c, s, step, id);
    if IsStartStep(s, step, id) {
      var x := s.actors[step.a];
      OwnCell(c, s, step.a, step.choice);
      LateStart(c, s.now, Get(s, id), x.try, x.pc, step.choice);
    }
    forall b | b in s'.actors && IsStart(s'.actors[b], id) ensures s'.actors[b].pc.Read? || s'.actors[b].pc.Finish? {
      ActorCameFrom(c, s, step, b);
    }
  }

  /** Where a sweep stands with a container that nobody wanted when it began. */
  ghost predicate LeakDue(s: State, v: SweepVars, id: Id) {
    && Leaked(s, id)
    && (PastList(v.pc) && s.cells[id].box.Some? ==> id in Live(v.listing))
    && (PastRead(v.pc) && id in v.statuses ==> Stage(v.statuses[id]) >= 2)
    && (v.pc.MarkStopped? && v.i < |v.listing| && v.listing[v.i].id == id ==> s.cells[id].box.None?)
    && (forall k: nat :: Handled(v, k) && v.listing[k].id == id ==> s.cells[id].box.None?)
  }

  lemma LeakDueReads(s: State, s': State, v: SweepVars, choice: Choice, v': SweepVars, id: Id)
    requires LeakDue(s, v, id) && Leaked(s', id) && OwnStep(s, s', v, choice, v')
    requires v.pc.Snap? || v.pc.List? || v.pc.Statuses? || v.pc.Clock?
    ensures LeakDue(s', v', id)
  {
    hide RunningIds, Enumerates;
    if v.pc.List? && choice.Listed? && Enumerates(choice.order, s.cells) {
      OrderedIsLive(choice.order, s.cells, id);
      BoxIsOrdered(choice.order, s.cells, id);
    }
  }

  lemma BoxIsOrdered(order: seq<Id>, cells: Cells, id: Id)
    requires Enumerates(order, cells) && id in cells
    ensures cells[id].box.Some? ==> id in order
  {
  }

  lemma LeakDueWrites(s: State, s': State, v: SweepVars, choice: Choice, v': SweepVars, id: Id)
    requires LeakDue(s, v, id) && Leaked(s', id) && NoNewBox(s, s', id) && OwnStep(s, s', v, choice, v')
    requires v.pc.Loop? || v.pc.MarkStopped? || v.pc.Vanish?
    ensures LeakDue(s', v', id)
  {
    hide FinishLostStops, Leaked;
    assert id in s.cells && id in s'.cells by { KnownWhenLeaked(s, id); KnownWhenLeaked(s', id); }
    LateIsOrphaned(v, id);
    forall k: nat | Handled(v', k) && v'.listing[k].id == id ensures s'.cells[id].box.None? {
      assert v.listing[k] in v.listing;
      if Handled(v, k) {
        assert s.cells[id].box.None?;
      }
    }
  }

  lemma KnownWhenLeaked(s: State, id: Id)
    requires Leaked(s, id)
    ensures id in s.cells
  {
  }

  lemma LateIsOrphaned(v: SweepVars, id: Id)
    requires id in v.statuses ==> Stage(v.statuses[id]) >= 2
    ensures Orphaned(v.statuses, id)
  {
  }

  lemma LeakDueEnds(s: State, v: SweepVars, id: Id)
    requires LeakDue(s, v, id) && v.pc == Vanish({})
    ensures s.cells[id].box.None?
  {
    if id in Live(v.listing) {
      var e :| e in v.listing && e.id == id;
      var k :| 0 <= k < |v.listing| && v.listing[k] == e;
      assert Handled(v, k);
    }
  }

  ghost predicate SweepLeakDue(s: State, a: nat, id: Id) {
    Leaked(s, id) && (a in s.actors ==> s.actors[a].Sweep? && LeakDue(s, s.actors[a].vars, id))
  }

  lemma LeakDueStays(s: State, s': State, v: SweepVars, id: Id)
    requires LeakDue(s, v, id) && Leaked(s', id) && NoNewBox(s, s', id)
    ensures LeakDue(s', v, id)
  {
  }

  lemma SweepLeakDueStep(c: Consts, s: State, step: Step, a: nat, id: Id)
    requires Inv(s) && a < s.next && SweepLeakDue(s, a, id)
    ensures SweepLeakDue(Next(c, s, step), a, id)
  {
    hide Next, Leaked, LeakDue, CellsOk, IndexOk, ActorOk, StepSweep;
    var s' := Next(c, s, step);
    LeakedStep(c, s, step, id);
    if a in s'.actors {
      ActorCameFrom(c, s, step, a);
      var v := s.actors[a].vars;
      if step.Act? && step.a == a {
        SweepOwnStep(c, s, a, step.choice);
        if v.pc.Loop? || v.pc.MarkStopped? || v.pc.Vanish? {
          LeakDueWrites(s, s', v, step.choice, s'.actors[a].vars, id);
        } else {
          LeakDueReads(s, s', v, step.choice, s'.actors[a].vars, id);
        }
      } else {
        OtherActorSame(c, s, step, a);
        LeakDueStays(s, s', v, id);
      }
    }
  }

  lemma {:induction false} SweepLeakDueRun(c: Consts, s: State, steps: seq<Step>, a: nat, id: Id)
    requires Inv(s) && a < s.next && SweepLeakDue(s, a, id)
    ensures SweepLeakDue(Run(c, s, steps), a, id)
    decreases |steps|
  {
    hide Next, Inv, SweepLeakDue;
    if steps == [] {
    } else {
      StepKeeps(c, s, steps[0]);
      NextGrows(c, s, steps[0]);
      SweepLeakDueStep(c, s, steps[0], a, id);
      SweepLeakDueRun(c, Next(c, s, steps[0]), steps[1..], a, id);
    }
  }

  /** Whatever everybody else does meanwhile, and under either delivery regime: a container whose row is
      stopping, terminal or missing when a sweep begins, with no start run of it past its read, is gone
      when that sweep completes. */
  lemma LeaksAreRemoved(c: Consts, s: State, a: nat, id: Id, steps: seq<Step>, choice: Choice)
    requires Inv(s) && a in s.actors && s.actors[a] == Sweep(NEW_SWEEP) && Leaked(s, id)
    requires
      var t := Run(c, s, steps);
      a in t.actors && t.actors[a].Sweep? && t.actors[a].vars.pc == Vanish({})
    ensures
      var t' := Next(c, Run(c, s, steps), Act(a, choice));
      a !in t'.actors && Get(t', id).box.None?
  {
    hide Next, Inv, Leaked;
    assert LeakDue(s, NEW_SWEEP, id);
    hide LeakDue;
    OwnsHandle(s, a);
    SweepLeakDueRun(c, s, steps, a, id);
    RunKeeps(c, s, steps);
    var t := Run(c, s, steps);
    KnownWhenLeaked(t, id);
    LeakDueEnds(t, t.actors[a].vars, id);
    LeakedStep(c, t, Act(a, choice), id);
    SweepOwnStep(c, t, a, choice);
  }
}
