/** What the counts of a sweep mean while everybody else is at work: they count the sweep's own
    writes, one by one. */
module SweepCounts {
  import opened Lifecycle
  import opened Protocol
  import opened Invariant
  import opened Locality
  import opened Outcomes
  import opened Progress
  import opened ServiceCode

  function Plus(x: Reaped, y: Reaped): Reaped {
    Reaped(x.expired + y.expired, x.orphan + y.orphan, x.vanished + y.vanished)
  }

  /** The step of the sweep `a` marks the row of the container that it has just removed. */
  predicate Marks(s: State, step: Step, a: nat) {
    && step.Act? && step.a == a && a in s.actors && s.actors[a].Sweep?
    && s.actors[a].vars.pc.MarkStopped? && s.actors[a].vars.i < |s.actors[a].vars.listing|
  }

  /** What one step adds to the counts of the sweep `a`: a container that it removed, by the reason it
      had, and the rows that its own write took from `Running` to `Failed`. */
  function OwnCounts(s: State, step: Step, s': State, a: nat): Reaped {
    if !(step.Act? && step.a == a) then NOTHING_REAPED
    else
      var late := Marks(s, step, a) && s.actors[a].vars.listing[s.actors[a].vars.i].expiry <= s.actors[a].vars.at;
      Reaped(if Marks(s, step, a) && late then 1 else 0,
             if Marks(s, step, a) && !late then 1 else 0,
             |Entered(s, s', Running, Failed)|)
  }

  function CountedBy(c: Consts, s: State, steps: seq<Step>, a: nat): Reaped
    decreases |steps|
  {
    if steps == [] then NOTHING_REAPED
    else Plus(OwnCounts(s, steps[0], Next(c, s, steps[0]), a), CountedBy(c, Next(c, s, steps[0]), steps[1..], a))
  }

  // ---- One step ----

  lemma NoneEnter(s: State, s': State)
    requires forall id :: id in s.cells && Matches(s.cells[id].row, {Running}) ==> !Matches(Get(s', id).row, {Failed})
    ensures Entered(s, s', Running, Failed) == {}
  {
  }

  lemma OneEnters(s: State, s': State, id: Id)
    requires id in s.cells && Matches(s.cells[id].row, {Running}) && Matches(Get(s', id).row, {Failed})
    requires forall j :: j in s.cells && j != id ==> Get(s', j) == s.cells[j]
    ensures Entered(s, s', Running, Failed) == {id}
  {
  }

  /** Away from its second loop a sweep fails nobody. */
  lemma OthersFailNobody(cells: Cells, now: Time, v: SweepVars, choice: Choice, id: Id)
    requires !v.pc.Vanish? || v.pc.todo == {}
    requires id in cells && Matches(cells[id].row, {Running})
    ensures !Matches(Look(StepSweep(cells, now, v, choice).cells, id).row, {Failed})
  {
    hide Enumerates, StatusesOf, RunningIds, MustGo;
  }

  lemma OwnStepCounts(c: Consts, s: State, a: nat, choice: Choice)
    requires a in s.actors && s.actors[a].Sweep? && ActorOk(s, s.actors[a])
    ensures
      var s' := Next(c, s, Act(a, choice));
      var counts := OwnCounts(s, Act(a, choice), s', a);
      if a in s'.actors then s'.actors[a].Sweep? && s'.actors[a].vars.reaped == Plus(s.actors[a].vars.reaped, counts)
      else counts == NOTHING_REAPED
  {
    hide Next, StepSweep, CellsOk, SweepOk, Entered;
    var s' := Next(c, s, Act(a, choice));
    var v := s.actors[a].vars;
    SweepOwnStep(c, s, a, choice);
    if v.pc.Vanish? && v.pc.todo != {} {
      VanishCounts(c, s, a, choice);
    } else {
      forall id | id in s.cells && Matches(s.cells[id].row, {Running}) ensures !Matches(Get(s', id).row, {Failed}) {
        OthersFailNobody(s.cells, s.now, v, choice, id);
      }
      NoneEnter(s, s');
      LoopCounts(s, v, choice);
    }
  }

  lemma LoopCounts(s: State, v: SweepVars, choice: Choice)
    requires SweepOk(s, v) && (!v.pc.Vanish? || v.pc.todo == {})
    ensures
      var out := StepSweep(s.cells, s.now, v, choice);
      && (v.pc.MarkStopped? ==>
            && v.i < |v.listing| && out.vars.Some?
            && out.vars.value.reaped ==
               Plus(v.reaped, if v.listing[v.i].expiry <= v.at then Reaped(1, 0, 0) else Reaped(0, 1, 0)))
      && (!v.pc.MarkStopped? && out.vars.Some? ==> out.vars.value.reaped == v.reaped)
  {
    hide Enumerates, StatusesOf, RunningIds, MustGo, ListingOk;
  }

  lemma VanishCounts(c: Consts, s: State, a: nat, choice: Choice)
    requires a in s.actors && s.actors[a].Sweep? && SweepOk(s, s.actors[a].vars)
    requires s.actors[a].vars.pc.Vanish? && s.actors[a].vars.pc.todo != {}
    ensures
      var s' := Next(c, s, Act(a, choice));
      && a in s'.actors && s'.actors[a].Sweep?
      && s'.actors[a].vars.reaped ==
         Plus(s.actors[a].vars.reaped, Reaped(0, 0, |Entered(s, s', Running, Failed)|))
  {
    hide Next, Entered, FinishLostStops, Live;
    var s' := Next(c, s, Act(a, choice));
    var v := s.actors[a].vars;
    SweepOwnStep(c, s, a, choice);
    if choice.Pick? && choice.id in v.pc.todo && Matches(Get(s, choice.id).row, {Running}) {
      OneEnters(s, s', choice.id);
    } else {
      NoneEnter(s, s');
    }
  }

  // ---- Whole runs ----

  lemma {:induction false} GoneStaysGone(c: Consts, s: State, steps: seq<Step>, a: nat)
    requires Inv(s) && a !in s.actors && a < s.next
    ensures a !in Run(c, s, steps).actors
    decreases |steps|
  {
    hide Next, Inv;
    if steps == [] {
    } else {
      StepKeeps(c, s, steps[0]);
      NextGrows(c, s, steps[0]);
      if a in Next(c, s, steps[0]).actors {
        ActorCameFrom(c, s, steps[0], a);
      }
      GoneStaysGone(c, Next(c, s, steps[0]), steps[1..], a);
    }
  }

  /** While it is at work, a sweep's counts are what its own steps have added. */
  lemma {:induction false} CountsRun(c: Consts, s: State, steps: seq<Step>, a: nat)
    requires Inv(s) && a < s.next && a in s.actors && s.actors[a].Sweep?
    requires a in Run(c, s, steps).actors
    ensures
      var t := Run(c, s, steps);
      t.actors[a].Sweep? && t.actors[a].vars.reaped == Plus(s.actors[a].vars.reaped, CountedBy(c, s, steps, a))
    decreases |steps|
  {
    hide Next, Inv, OwnCounts;
    if steps == [] {
    } else {
      var s' := Next(c, s, steps[0]);
      StepKeeps(c, s, steps[0]);
      NextGrows(c, s, steps[0]);
      if a !in s'.actors {
        GoneStaysGone(c, s', steps[1..], a);
      } else {
        OneStepCounts(c, s, steps[0], a);
        CountsRun(c, s', steps[1..], a);
      }
    }
  }

  lemma OneStepCounts(c: Consts, s: State, step: Step, a: nat)
    requires Inv(s) && a in s.actors && s.actors[a].Sweep? && a in Next(c, s, step).actors
    ensures
      var s' := Next(c, s, step);
      s'.actors[a].Sweep? && s'.actors[a].vars.reaped == Plus(s.actors[a].vars.reaped, OwnCounts(s, step, s', a))
  {
    hide Next, Entered;
    OwnsHandle(s, a);
    hide Inv;
    if step.Act? && step.a == a {
      OwnStepCounts(c, s, a, step.choice);
    } else {
      OtherActorSame(c, s, step, a);
    }
  }

  lemma CountedSnoc(c: Consts, s: State, steps: seq<Step>, step: Step, a: nat)
    ensures
      var t := Run(c, s, steps);
      CountedBy(c, s, steps + [step], a) == Plus(CountedBy(c, s, steps, a), OwnCounts(t, step, Next(c, t, step), a))
    decreases |steps|
  {
    hide Next, OwnCounts;
    if steps == [] {
      assert [] + [step] == [step] && [step][1..] == [];
      assert CountedBy(c, Next(c, s, step), [], a) == NOTHING_REAPED;
    } else {
      assert (steps + [step])[0] == steps[0] && (steps + [step])[1..] == steps[1..] + [step];
      CountedSnoc(c, Next(c, s, steps[0]), steps[1..], step, a);
    }
  }

  /** The last step of the run was the sweep's own; it had these counts then, and was past its two
      loops or about to be aborted. */
  ghost predicate LastReaped(c: Consts, s0: State, trace: seq<Step>, a: nat, reaped: Reaped, success: bool) {
    && trace != [] && trace[|trace| - 1].Act? && trace[|trace| - 1].a == a
    && a in Met(c, s0, trace).actors && Met(c, s0, trace).actors[a].Sweep?
    && Met(c, s0, trace).actors[a].vars.reaped == reaped
    && (success <==> Met(c, s0, trace).actors[a].vars.pc.Vanish?)
  }

  lemma ReapedLast(c: Consts, s0: State, trace: seq<Step>, s1: State, others: seq<Step>, choice: Choice, a: nat, v: SweepVars)
    requires s1 == Run(c, s0, trace) && a in s1.actors && a < s1.next && s1.actors[a] == Sweep(v)
    requires forall i :: 0 <= i < |others| ==> Avoids(others[i], a)
    ensures LastReaped(c, s0, trace + others + [Act(a, choice)], a, v.reaped, v.pc.Vanish?)
  {
    hide Run, Met;
    MetLast(c, s0, trace, s1, others, Act(a, choice));
    OthersKeepMeRun(c, s1, others, a);
  }

  lemma ReapedLastJoins(c: Consts, s0: State, trace: seq<Step>, s1: State, more: seq<Step>, a: nat,
                        reaped: Reaped, success: bool)
    requires s1 == Run(c, s0, trace) && LastReaped(c, s1, more, a, reaped, success)
    ensures LastReaped(c, s0, trace + more, a, reaped, success)
  {
    hide Run, Met;
    MetJoins(c, s0, trace, s1, more);
  }

  /** What a sweep reports when it ends, completed or aborted, whatever others did meanwhile: the
      containers that it removed and came to mark, by the reason it had, and the rows that its own
      writes took from `Running` to `Failed`. */
  lemma SweepReportsItsWrites(c: Consts, s0: State, trace: seq<Step>, a: nat, reaped: Reaped, success: bool)
    requires Inv(s0) && a in s0.actors && s0.actors[a] == Sweep(NEW_SWEEP)
    requires LastReaped(c, s0, trace, a, reaped, success) && a !in Run(c, s0, trace).actors
    ensures reaped == CountedBy(c, s0, trace, a)
  {
    hide Next, Inv, OwnCounts;
    var steps, last := trace[..|trace| - 1], trace[|trace| - 1];
    assert trace == steps + [last] && last == Act(a, last.choice);
    RunSnoc(c, s0, steps, last);
    CountedSnoc(c, s0, steps, last, a);
    OwnsHandle(s0, a);
    CountsRun(c, s0, steps, a);
    RunKeeps(c, s0, steps);
    OwnsHandle(Run(c, s0, steps), a);
    OwnStepCounts(c, Run(c, s0, steps), a, last.choice);
  }
}
