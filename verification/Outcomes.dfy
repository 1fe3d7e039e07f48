/** What the outcome counters and the URL column mean, over whole runs and under any regime. */
module Outcomes {
  import opened Lifecycle
  import opened Protocol
  import opened Invariant
  import opened Locality

  // ---- Counters count transitions ----

  /** The sandboxes whose row goes from `from` to `to` in this step. */
  function Entered(s: State, s': State, from: Status, to: Status): set<Id> {
    set id | id in s.cells && Matches(s.cells[id].row, {from}) && Matches(Get(s', id).row, {to})
  }

  /** Which outcome a start run counts in this step. */
  function StartNote(c: Consts, s: State, step: Step): Note {
    if step.Act? && step.a in s.actors && s.actors[step.a].Start? then
      var x := s.actors[step.a];
      StepStart(c, s.now, Get(s, x.id), x.try, x.pc, step.choice).note
    else Quiet
  }

  /** A start run counts a success exactly when its own write promoted the row, and a retry exactly
      when its own write put it back into the queue. */
  lemma NoteMeans(c: Consts, now: Time, cell: Cell, try: nat, pc: StartPc, choice: Choice)
    ensures
      var out := StepStart(c, now, cell, try, pc, choice);
      && (out.note.Success? <==> Matches(cell.row, {Starting}) && Matches(out.cell.row, {Running}))
      && (out.note.Retry? <==> Matches(cell.row, {Starting}) && Matches(out.cell.row, {Queued}))
      && (Matches(cell.row, {Starting}) && Matches(out.cell.row, {Failed}) ==> out.note.Failure?)
  {
  }

  /** With a row to work on, a start run counts a failure when its own write failed the row, and when
      it settles its last try and finds that the row is not `Starting` any more. */
  lemma FailureMeans(c: Consts, now: Time, cell: Cell, try: nat, pc: StartPc, choice: Choice)
    requires cell.row.Some?
    ensures
      var out := StepStart(c, now, cell, try, pc, choice);
      out.note.Failure? <==>
        || (Matches(cell.row, {Starting}) && Matches(out.cell.row, {Failed}))
        || (pc.Settle? && try >= c.maxTries && !Matches(cell.row, {Starting}))
  {
  }

  lemma OnlyStartsCount(c: Consts, s: State, step: Step)
    ensures
      var t' := Next(c, s, step).tally;
      var note := StartNote(c, s, step);
      && t'.success == s.tally.success + (if note.Success? then 1 else 0)
      && t'.retry == s.tally.retry + (if note.Retry? then 1 else 0)
      && t'.failed == s.tally.failed + (if note.Failure? then 1 else 0)
  {
    hide StepStart, StepSweep, StepCreate, StepDelete, StartInFlight, StopInFlight;
    if step.Act? && step.a in s.actors && s.actors[step.a].Start? {
      StartTally(c, s, step.a, step.choice);
    } else if step.Act? && step.a in s.actors && s.actors[step.a].Stop? {
      StopTally(c, s, step.a, step.choice);
    }
  }

  lemma StartTally(c: Consts, s: State, a: nat, choice: Choice)
    requires a in s.actors && s.actors[a].Start?
    ensures Next(c, s, Act(a, choice)).tally == Noted(s.tally, StartNote(c, s, Act(a, choice)))
  {
    hide StepStart, Noted;
  }

  lemma StopTally(c: Consts, s: State, a: nat, choice: Choice)
    requires a in s.actors && s.actors[a].Stop?
    ensures
      var t' := Next(c, s, Act(a, choice)).tally;
      t'.success == s.tally.success && t'.retry == s.tally.retry && t'.failed == s.tally.failed
  {
  }

  lemma EnteredBy(c: Consts, s: State, step: Step, to: Status)
    requires Inv(s) && (to.Running? || to.Queued?)
    ensures
      var note := StartNote(c, s, step);
      Entered(s, Next(c, s, step), Starting, to) ==
        if (to.Running? && note.Success?) || (to.Queued? && note.Retry?) then {s.actors[step.a].id} else {}
  {
    hide Next, CellsOk, IndexOk, StepStart;
    var s' := Next(c, s, step);
    var note := StartNote(c, s, step);
    forall id | id in s.cells
      ensures id in Entered(s, s', Starting, to) <==>
              IsStartStep(s, step, id) && ((to.Running? && note.Success?) || (to.Queued? && note.Retry?))
    {
      StepOnCell(c, s, step, id);
      if IsStartStep(s, step, id) {
        OwnCell(c, s, step.a, step.choice);
        var x := s.actors[step.a];
        NoteMeans(c, s.now, Get(s, id), x.try, x.pc, step.choice);
      }
    }
    if step.Act? && step.a in s.actors && s.actors[step.a].Start? {
      assert ActorOk(s, s.actors[step.a]) && Reached(s, s.actors[step.a].id, 0);
    }
  }

  /** How many sandboxes enter `to` from `Starting` in a run. */
  function Transitions(c: Consts, s: State, steps: seq<Step>, to: Status): nat
    decreases |steps|
  {
    if steps == [] then 0
    else |Entered(s, Next(c, s, steps[0]), Starting, to)| + Transitions(c, Next(c, s, steps[0]), steps[1..], to)
  }

  /** `jobs_total{outcome="success"}` counts the transitions from `Starting` to `Running`, and
      `retry` those from `Starting` to `Queued`, whatever the duplicates, crashes and races. */
  lemma {:induction false} CountersCountTransitions(c: Consts, s: State, steps: seq<Step>)
    requires Inv(s)
    ensures Run(c, s, steps).tally.success == s.tally.success + Transitions(c, s, steps, Running)
    ensures Run(c, s, steps).tally.retry == s.tally.retry + Transitions(c, s, steps, Queued)
    decreases |steps|
  {
    hide Next, Inv, Entered, StartNote;
    if steps == [] {
    } else {
      EnteredBy(c, s, steps[0], Running);
      EnteredBy(c, s, steps[0], Queued);
      OnlyStartsCount(c, s, steps[0]);
      StepKeeps(c, s, steps[0]);
      CountersCountTransitions(c, Next(c, s, steps[0]), steps[1..]);
    }
  }

  // ---- What the failure counter counts ----

  predicate IsPlainWrite(s: State, step: Step, id: Id) {
    step.Act? && step.a in s.actors && s.actors[step.a] == CreateFail(id)
  }

  /** The sandboxes that go from `Starting` to `Failed` in this step, the plain write after a failed
      enqueue apart, which belongs to another counter. */
  function GivenUp(s: State, step: Step, s': State): set<Id> {
    set id | id in Entered(s, s', Starting, Failed) && !IsPlainWrite(s, step, id)
  }

  /** A start run settles its last try, and somebody else has moved the row on. */
  predicate LosesLastTry(c: Consts, s: State, step: Step) {
    && step.Act? && step.a in s.actors && s.actors[step.a].Start?
    && s.actors[step.a].pc.Settle? && s.actors[step.a].try >= c.maxTries
    && !Matches(Get(s, s.actors[step.a].id).row, {Starting})
  }

  lemma OthersNeverFail(c: Consts, s: State, step: Step, id: Id)
    requires id in s.cells && !IsStartStep(s, step, id) && !IsPlainWrite(s, step, id)
    requires Matches(Get(s, id).row, {Starting})
    ensures !Matches(Get(Next(c, s, step), id).row, {Failed})
  {
    hide Next;
    if !step.Act? {
      BeginRests(c, s, step, id);
    } else if step.a !in s.actors {
      NoStep(c, s, step);
    } else if s.actors[step.a].Sweep? {
      SweepOwnStep(c, s, step.a, step.choice);
      SweepNeverFails(s, s.actors[step.a].vars, step.choice, id);
    } else if IsCreate(s.actors[step.a]) {
      CreateLeaves(c, s, step.a, step.choice, id);
    } else {
      JobsNeverFail(c, s, step.a, step.choice, id);
    }
  }

  lemma SweepNeverFails(s: State, v: SweepVars, choice: Choice, id: Id)
    requires Matches(Get(s, id).row, {Starting})
    ensures !Matches(Look(StepSweep(s.cells, s.now, v, choice).cells, id).row, {Failed})
  {
    hide Enumerates, RunningIds, StatusesOf, MustGo;
  }

  lemma JobsNeverFail(c: Consts, s: State, a: nat, choice: Choice, id: Id)
    requires a in s.actors && !IsStart(s.actors[a], id) && Matches(Get(s, id).row, {Starting})
    requires s.actors[a].Start? || s.actors[a].Stop? || IsDelete(s.actors[a])
    ensures !Matches(Get(Next(c, s, Act(a, choice)), id).row, {Failed})
  {
    hide StepStart;
  }

  lemma GivenUpBy(c: Consts, s: State, step: Step)
    requires Inv(s)
    ensures
      var won := StartNote(c, s, step).Failure? && !LosesLastTry(c, s, step);
      GivenUp(s, step, Next(c, s, step)) == if won then {s.actors[step.a].id} else {}
    ensures LosesLastTry(c, s, step) ==> StartNote(c, s, step).Failure?
  {
    hide Next, CellsOk, IndexOk, StepStart;
    var s' := Next(c, s, step);
    var won := StartNote(c, s, step).Failure? && !LosesLastTry(c, s, step);
    if step.Act? && step.a in s.actors && s.actors[step.a].Start? {
      var x := s.actors[step.a];
      assert ActorOk(s, x) && Reached(s, x.id, 0);
      OwnCell(c, s, step.a, step.choice);
      FailureMeans(c, s.now, Get(s, x.id), x.try, x.pc, step.choice);
    }
    forall id | id in s.cells ensures id in GivenUp(s, step, s') <==> IsStartStep(s, step, id) && won {
      if !IsStartStep(s, step, id) && !IsPlainWrite(s, step, id) && Matches(s.cells[id].row, {Starting}) {
        OthersNeverFail(c, s, step, id);
      }
    }
  }

  function GivenUpTotal(c: Consts, s: State, steps: seq<Step>): nat
    decreases |steps|
  {
    if steps == [] then 0
    else |GivenUp(s, steps[0], Next(c, s, steps[0]))| + GivenUpTotal(c, Next(c, s, steps[0]), steps[1..])
  }

  function LastTriesLost(c: Consts, s: State, steps: seq<Step>): nat
    decreases |steps|
  {
    if steps == [] then 0
    else (if LosesLastTry(c, s, steps[0]) then 1 else 0) + LastTriesLost(c, Next(c, s, steps[0]), steps[1..])
  }

  /** `jobs_total{outcome="failed"}` is not a count of failed rows: over whole runs it is the number
      of rows that a start run gave up, plus the number of last tries that settled after somebody
      else had moved the row on. */
  lemma {:induction false} FailureAlsoCountsLostRaces(c: Consts, s: State, steps: seq<Step>)
    requires Inv(s)
    ensures Run(c, s, steps).tally.failed ==
            s.tally.failed + GivenUpTotal(c, s, steps) + LastTriesLost(c, s, steps)
    decreases |steps|
  {
    hide Next, Inv, GivenUp, StartNote, LosesLastTry;
    if steps == [] {
    } else {
      GivenUpBy(c, s, steps[0]);
      OnlyStartsCount(c, s, steps[0]);
      StepKeeps(c, s, steps[0]);
      FailureAlsoCountsLostRaces(c, Next(c, s, steps[0]), steps[1..]);
    }
  }

  // ---- At most once ----

  predicate EntersRunning(s: State, s': State, id: Id) {
    !Matches(Get(s, id).row, {Running}) && Matches(Get(s', id).row, {Running})
  }

  function TimesStarted(c: Consts, s: State, steps: seq<Step>, id: Id): nat
    decreases |steps|
  {
    if steps == [] then 0 else
      var s' := Next(c, s, steps[0]);
      (if EntersRunning(s, s', id) then 1 else 0) + TimesStarted(c, s', steps[1..], id)
  }

  /** A sandbox starts to run at most once, for any deliveries, duplicates and crashes. */
  lemma {:induction false} StartedAtMostOnce(c: Consts, s: State, steps: seq<Step>, id: Id)
    requires Inv(s)
    ensures TimesStarted(c, s, steps, id) <= 1
    ensures Reached(s, id, 1) ==> TimesStarted(c, s, steps, id) == 0
    decreases |steps|
  {
    hide Next, CellsOk, IndexOk, ActorsOk;
    if steps == [] {
    } else {
      var s' := Next(c, s, steps[0]);
      StepKeeps(c, s, steps[0]);
      StartedAtMostOnce(c, s', steps[1..], id);
    }
  }

  // ---- The URL column ----

  predicate HasUrl(s: State, id: Id) {
    Get(s, id).row.Some? && Get(s, id).row.value.url.Some?
  }

  ghost predicate UrlStaged(s: State, id: Id) {
    && (HasUrl(s, id) ==> Reached(s, id, 1))
    && (Matches(Get(s, id).row, {Running}) ==> HasUrl(s, id))
  }

  lemma UrlOwnStep(c: Consts, now: Time, cell: Cell, try: nat, pc: StartPc, choice: Choice)
    requires cell.row.Some? && (cell.row.value.url.Some? ==> AtLeast(cell, 1))
    requires Matches(cell.row, {Running}) ==> cell.row.value.url.Some?
    ensures
      var cell' := StepStart(c, now, cell, try, pc, choice).cell;
      && cell'.row.Some?
      && (cell'.row.value.url.Some? ==> AtLeast(cell', 1))
      && (Matches(cell'.row, {Running}) ==> cell'.row.value.url.Some?)
      && (cell'.row.value.url.Some? <==> cell.row.value.url.Some? || Matches(cell'.row, {Running}))
  {
  }

  lemma UrlStep(c: Consts, s: State, step: Step, id: Id)
    requires Inv(s) && UrlStaged(s, id)
    ensures
      var s' := Next(c, s, step);
      UrlStaged(s', id) && (HasUrl(s', id) <==> HasUrl(s, id) || Matches(Get(s', id).row, {Running}))
  {
    hide Next, CellsOk, IndexOk;
    var s' := Next(c, s, step);
    StepKeeps(c, s, step);
    if id in s.cells {
      StepOnCell(c, s, step, id);
      if IsStartStep(s, step, id) {
        OwnCell(c, s, step.a, step.choice);
        var x := s.actors[step.a];
        assert ActorOk(s, x);
        UrlOwnStep(c, s.now, Get(s, id), x.try, x.pc, step.choice);
      }
    } else if id in s'.cells {
      NewCell(c, s, step, id);
    }
  }

  predicate EverRan(c: Consts, s: State, steps: seq<Step>, id: Id)
    decreases |steps|
  {
    || Matches(Get(s, id).row, {Running})
    || (steps != [] && EverRan(c, Next(c, s, steps[0]), steps[1..], id))
  }

  lemma {:induction false} UrlRun(c: Consts, s: State, steps: seq<Step>, id: Id)
    requires Inv(s) && UrlStaged(s, id)
    ensures HasUrl(Run(c, s, steps), id) <==> HasUrl(s, id) || EverRan(c, s, steps, id)
    decreases |steps|
  {
    hide Next, Inv;
    if steps == [] {
    } else {
      UrlStep(c, s, steps[0], id);
      StepKeeps(c, s, steps[0]);
      UrlRun(c, Next(c, s, steps[0]), steps[1..], id);
    }
  }

  /** A row carries a URL exactly if it has been running at some time. */
  lemma UrlIffEverRan(c: Consts, s0: State, steps: seq<Step>, id: Id)
    requires Init(s0)
    ensures HasUrl(Run(c, s0, steps), id) <==> EverRan(c, s0, steps, id)
  {
    InitHolds(s0);
    UrlRun(c, s0, steps, id);
  }

  // ---- Terminal rows ----

  lemma JobsRest(c: Consts, s: State, a: nat, choice: Choice, id: Id)
    requires a in s.actors && AtLeast(Get(s, id), 3)
    requires s.actors[a].Start? || s.actors[a].Stop? || IsDelete(s.actors[a])
    ensures Get(Next(c, s, Act(a, choice)), id).row == Get(s, id).row
  {
  }

  lemma ActRests(c: Consts, s: State, a: nat, choice: Choice, id: Id)
    requires a in s.actors && AtLeast(Get(s, id), 3) && s.actors[a] != CreateFail(id)
    ensures Get(Next(c, s, Act(a, choice)), id).row == Get(s, id).row
  {
    var x := s.actors[a];
    if x.Start? || x.Stop? || IsDelete(x) {
      JobsRest(c, s, a, choice, id);
    } else if x.Sweep? {
      SweepOwnStep(c, s, a, choice);
      SweepRests(s, x.vars, choice, id);
    } else {
      CreateLeaves(c, s, a, choice, id);
    }
  }

  lemma BeginRests(c: Consts, s: State, step: Step, id: Id)
    requires id in s.cells && !step.Act?
    ensures Get(Next(c, s, step), id).row == Get(s, id).row
  {
    hide StartInFlight, StopInFlight;
  }

  function FailedByWrite(row: Option<Row>): Option<Row> {
    if row.Some? then Some(row.value.(status := Failed, error := Some(EnqueueFailed))) else None
  }

  /** What any step leaves of a stopped or failed row: the plain write after a failed enqueue fails
      it, every other step leaves it as it is. In particular a stopped row changes if and only if
      that write lands. */
  lemma TerminalRowsRest(c: Consts, s: State, step: Step, id: Id)
    requires AtLeast(Get(s, id), 3)
    ensures Get(Next(c, s, step), id).row ==
            if IsPlainWrite(s, step, id) then FailedByWrite(Get(s, id).row) else Get(s, id).row
    ensures Matches(Get(s, id).row, {Stopped}) ==>
              (Get(Next(c, s, step), id).row != Get(s, id).row <==> IsPlainWrite(s, step, id))
  {
    hide Next;
    if !step.Act? {
      BeginRests(c, s, step, id);
    } else if step.a !in s.actors {
      NoStep(c, s, step);
    } else if s.actors[step.a] != CreateFail(id) {
      ActRests(c, s, step.a, step.choice, id);
    } else {
      PlainWrite(c, s, step.a, step.choice, id);
    }
  }

  /** Every enqueue of a start job in the run ends well. */
  ghost predicate EnqueuesSucceed(c: Consts, s: State, steps: seq<Step>)
    decreases |steps|
  {
    steps != [] ==>
      && (steps[0].Act? && steps[0].a in s.actors && s.actors[steps[0].a].CreateEnqueue? ==>
            !steps[0].choice.Fail? && !steps[0].choice.FailLanded?)
      && EnqueuesSucceed(c, Next(c, s, steps[0]), steps[1..])
  }

  ghost predicate NobodyFails(s: State) {
    forall a :: a in s.actors ==> !s.actors[a].CreateFail?
  }

  lemma CreateNeverFails(c: Consts, s: State, a: nat, choice: Choice)
    requires a in s.actors && IsCreate(s.actors[a]) && !s.actors[a].CreateFail?
    requires s.actors[a].CreateEnqueue? ==> !choice.Fail? && !choice.FailLanded?
    ensures
      var out := StepCreate(c, s.cells, s.keys, s.now, s.actors[a], choice);
      out.next.Some? ==> !out.next.value.CreateFail?
  {
    hide ActiveIds;
  }

  /** A request turns to the plain write only when its enqueue fails. */
  lemma NobodyFailsStep(c: Consts, s: State, step: Step)
    requires Inv(s) && NobodyFails(s)
    requires step.Act? && step.a in s.actors && s.actors[step.a].CreateEnqueue? ==>
               !step.choice.Fail? && !step.choice.FailLanded?
    ensures NobodyFails(Next(c, s, step))
  {
    hide Next, Inv;
    var s' := Next(c, s, step);
    forall b | b in s'.actors ensures !s'.actors[b].CreateFail? {
      ActorCameFrom(c, s, step, b);
      if b !in s.actors {
        NewNotFailing(c, s, step, b);
      } else if step.Act? && step.a == b {
        OwnNotFailing(c, s, b, step.choice);
      }
    }
  }

  lemma CreateNotFailing(c: Consts, s: State, a: nat, choice: Choice)
    requires a in s.actors && IsCreate(s.actors[a]) && !s.actors[a].CreateFail?
    requires s.actors[a].CreateEnqueue? ==> !choice.Fail? && !choice.FailLanded?
    ensures
      var s' := Next(c, s, Act(a, choice));
      a in s'.actors ==> !s'.actors[a].CreateFail?
  {
    hide StepCreate;
    CreateNeverFails(c, s, a, choice);
  }

  lemma OwnNotFailing(c: Consts, s: State, a: nat, choice: Choice)
    requires a in s.actors && !s.actors[a].CreateFail?
    requires s.actors[a].CreateEnqueue? ==> !choice.Fail? && !choice.FailLanded?
    ensures
      var s' := Next(c, s, Act(a, choice));
      a in s'.actors ==> !s'.actors[a].CreateFail?
  {
    hide Next;
    if IsCreate(s.actors[a]) {
      CreateNotFailing(c, s, a, choice);
    } else if IsDelete(s.actors[a]) {
      DeleteNotFailing(c, s, a, choice);
    } else {
      JobNotFailing(c, s, a, choice);
    }
  }

  lemma DeleteNotFailing(c: Consts, s: State, a: nat, choice: Choice)
    requires a in s.actors && IsDelete(s.actors[a])
    ensures
      var s' := Next(c, s, Act(a, choice));
      a in s'.actors ==> !s'.actors[a].CreateFail?
  {
    hide StepDelete;
    DeleteStays(Get(s, s.actors[a].id), s.actors[a], choice);
  }

  lemma JobNotFailing(c: Consts, s: State, a: nat, choice: Choice)
    requires a in s.actors && !IsDelete(s.actors[a]) && !IsCreate(s.actors[a])
    ensures
      var s' := Next(c, s, Act(a, choice));
      a in s'.actors ==> !s'.actors[a].CreateFail?
  {
    hide StepStart, StepStop, StepSweep;
  }

  lemma NewNotFailing(c: Consts, s: State, step: Step, b: nat)
    requires Inv(s) && b !in s.actors && b in Next(c, s, step).actors
    ensures !Next(c, s, step).actors[b].CreateFail?
  {
    hide StepActor, StepCrash, StartInFlight, StopInFlight, CellsOk, IndexOk, ActorOk, Guarantee, DataKept;
    if step.Act? && step.a in s.actors {
      ActStep(c, s, step.a, step.choice);
    }
    if step.Crash? && step.a in s.actors {
      CrashStep(c, s, step.a, step.redeliver);
    }
  }

  /** In a run in which every enqueue of a start job succeeds, a stopped or failed row stays exactly
      as it is. */
  lemma {:induction false} TerminalRowsStay(c: Consts, s: State, steps: seq<Step>, id: Id)
    requires Inv(s) && NobodyFails(s) && EnqueuesSucceed(c, s, steps) && AtLeast(Get(s, id), 3)
    ensures Get(Run(c, s, steps), id).row == Get(s, id).row
    decreases |steps|
  {
    hide Next, Inv, NobodyFails;
    if steps == [] {
    } else {
      StepKeeps(c, s, steps[0]);
      NobodyFailsStep(c, s, steps[0]);
      assert !IsPlainWrite(s, steps[0], id) by { NotFailing(s, steps[0], id); }
      TerminalRowsRest(c, s, steps[0], id);
      TerminalRowsStay(c, Next(c, s, steps[0]), steps[1..], id);
    }
  }

  lemma NotFailing(s: State, step: Step, id: Id)
    requires NobodyFails(s)
    ensures !IsPlainWrite(s, step, id)
  {
  }

  lemma {:induction false} EnqueuesSplit(c: Consts, s: State, before: seq<Step>, after: seq<Step>)
    requires Inv(s) && NobodyFails(s) && EnqueuesSucceed(c, s, before + after)
    ensures
      var t := Run(c, s, before);
      Inv(t) && NobodyFails(t) && EnqueuesSucceed(c, t, after)
    decreases |before|
  {
    hide Next, Inv, NobodyFails;
    if before == [] {
      assert before + after == after;
    } else {
      assert (before + after)[0] == before[0] && (before + after)[1..] == before[1..] + after;
      StepKeeps(c, s, before[0]);
      NobodyFailsStep(c, s, before[0]);
      EnqueuesSplit(c, Next(c, s, before[0]), before[1..], after);
    }
  }

  /** The same from the start of the service: without a failed enqueue, `Stopped` is final. */
  lemma StoppedIsFinal(c: Consts, s0: State, before: seq<Step>, after: seq<Step>, id: Id)
    requires Init(s0) && EnqueuesSucceed(c, s0, before + after)
    requires Matches(Get(Run(c, s0, before), id).row, {Stopped})
    ensures Get(Run(c, s0, before + after), id).row == Get(Run(c, s0, before), id).row
  {
    hide Run, EnqueuesSucceed;
    InitHolds(s0);
    EnqueuesSplit(c, s0, before, after);
    RunAppend(c, s0, before, after);
    TerminalRowsStay(c, Run(c, s0, before), after, id);
  }

  lemma NoStep(c: Consts, s: State, step: Step)
    requires step.Act? && step.a !in s.actors
    ensures Next(c, s, step) == s
  {
  }

  lemma PlainWrite(c: Consts, s: State, a: nat, choice: Choice, id: Id)
    requires a in s.actors && s.actors[a] == CreateFail(id) && AtLeast(Get(s, id), 0)
    ensures Get(Next(c, s, Act(a, choice)), id).row == FailedByWrite(Get(s, id).row)
  {
  }

  lemma SweepRests(s: State, v: SweepVars, choice: Choice, id: Id)
    requires AtLeast(Get(s, id), 3)
    ensures Look(StepSweep(s.cells, s.now, v, choice).cells, id).row == Get(s, id).row
  {
    hide Enumerates, RunningIds, StatusesOf, MustGo;
  }

  lemma CreateLeaves(c: Consts, s: State, a: nat, choice: Choice, id: Id)
    requires id in s.cells && a in s.actors && IsCreate(s.actors[a]) && s.actors[a] != CreateFail(id)
    ensures Get(Next(c, s, Act(a, choice)), id).row == Get(s, id).row
  {
    hide StepCreate;
    CreateRests(c, s, s.actors[a], choice, id);
  }

  lemma CreateRests(c: Consts, s: State, x: Actor, choice: Choice, id: Id)
    requires id in s.cells && x != CreateFail(id)
    ensures Look(StepCreate(c, s.cells, s.keys, s.now, x, choice).cells, id).row == Get(s, id).row
  {
    hide ActiveIds;
  }
}
