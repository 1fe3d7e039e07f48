/** Creating sandboxes under concurrency: the admission cap and the idempotency key. */
module Admission {
  import opened Lifecycle
  import opened Protocol
  import opened Invariant
  import opened Locality

  // ---- The cap ----

  /** Creates that passed the count check and have not committed their row yet. */
  predicate IsPending(actor: Actor) {
    actor.CreateRoute? || actor.CreateInsert?
  }

  function Pending(s: State): set<nat> {
    set a | a in s.actors && IsPending(s.actors[a])
  }

  /** The slots in use or about to be. */
  function Load(s: State): nat {
    |ActiveIds(s.cells)| + |Pending(s)|
  }

  /** No transition ever makes a terminal row active, so only an insert adds to the active rows. */
  lemma ActiveShrinks(c: Consts, s: State, step: Step)
    requires Inv(s)
    ensures
      var s' := Next(c, s, step);
      forall id :: id in ActiveIds(s'.cells) && id in s.cells ==> id in ActiveIds(s.cells)
  {
    hide Next, CellsOk, IndexOk, ActorsOk;
    StepKeeps(c, s, step);
  }

  lemma Subset<T>(a: set<T>, b: set<T>)
    requires a <= b
    ensures |a| <= |b|
  {
    assert b == a + (b - a);
  }

  lemma NewlyPending(c: Consts, s: State, step: Step, a: nat)
    requires Inv(s) && a in Pending(Next(c, s, step)) && a !in Pending(s)
    ensures step.Act? && step.a == a && a in s.actors && s.actors[a].CreateCount?
    ensures |ActiveIds(s.cells)| < c.maxActive
    ensures Next(c, s, step).cells == s.cells
  {
    hide Next, Inv, CellsOk, IndexOk, ActorsOk;
    var s' := Next(c, s, step);
    ActorCameFrom(c, s, step, a);
    if a in s.actors {
      OwnPending(c, s, a, step.choice);
    } else {
      NewNotPending(c, s, step, a);
    }
  }

  lemma NewNotPending(c: Consts, s: State, step: Step, a: nat)
    requires Inv(s) && a !in s.actors && a in Next(c, s, step).actors
    ensures !IsPending(Next(c, s, step).actors[a])
  {
    hide StepActor, StepCrash, StartInFlight, StopInFlight, CellsOk, IndexOk, ActorOk, Guarantee, DataKept;
    if step.Act? && step.a in s.actors {
      ActStep(c, s, step.a, step.choice);
    }
    if step.Crash? && step.a in s.actors {
      CrashStep(c, s, step.a, step.redeliver);
    }
  }

  lemma OwnPending(c: Consts, s: State, a: nat, choice: Choice)
    requires a in s.actors && !IsPending(s.actors[a])
    ensures
      var s' := Next(c, s, Act(a, choice));
      a in s'.actors && IsPending(s'.actors[a]) ==>
        s.actors[a].CreateCount? && |ActiveIds(s.cells)| < c.maxActive && s'.cells == s.cells
  {
    hide Next;
    var x := s.actors[a];
    if IsCreate(x) {
      CreatePends(c, s, x, choice);
      CreateOwnStep(c, s, a, choice);
    } else {
      OthersNeverPend(c, s, a, choice);
    }
  }

  lemma CreateOwnStep(c: Consts, s: State, a: nat, choice: Choice)
    requires a in s.actors && IsCreate(s.actors[a])
    ensures
      var s' := Next(c, s, Act(a, choice));
      var out := StepCreate(c, s.cells, s.keys, s.now, s.actors[a], choice);
      && s'.cells == out.cells
      && (if out.next.None? then a !in s'.actors else a in s'.actors && s'.actors[a] == out.next.value)
  {
    hide StepCreate;
  }

  lemma JobsNeverPend(c: Consts, s: State, a: nat, choice: Choice)
    requires a in s.actors && !IsCreate(s.actors[a]) && !IsDelete(s.actors[a])
    ensures
      var s' := Next(c, s, Act(a, choice));
      a in s'.actors ==> !IsPending(s'.actors[a])
  {
    hide StepStart, StepStop, StepSweep;
  }

  lemma DeletesNeverPend(c: Consts, s: State, a: nat, choice: Choice)
    requires a in s.actors && IsDelete(s.actors[a])
    ensures
      var s' := Next(c, s, Act(a, choice));
      a in s'.actors ==> !IsPending(s'.actors[a])
  {
    hide StepDelete;
    DeleteStays(Get(s, s.actors[a].id), s.actors[a], choice);
  }

  lemma OthersNeverPend(c: Consts, s: State, a: nat, choice: Choice)
    requires a in s.actors && !IsCreate(s.actors[a])
    ensures
      var s' := Next(c, s, Act(a, choice));
      a in s'.actors ==> !IsPending(s'.actors[a])
  {
    hide Next;
    if IsDelete(s.actors[a]) {
      DeletesNeverPend(c, s, a, choice);
    } else {
      JobsNeverPend(c, s, a, choice);
    }
  }

  lemma CreatePends(c: Consts, s: State, actor: Actor, choice: Choice)
    requires IsCreate(actor) && !IsPending(actor)
    ensures
      var out := StepCreate(c, s.cells, s.keys, s.now, actor, choice);
      out.next.Some? && IsPending(out.next.value) ==>
        actor.CreateCount? && |ActiveIds(s.cells)| < c.maxActive && out.cells == s.cells
  {
    hide ActiveIds;
  }

  lemma InsertLeavesPending(c: Consts, s: State, step: Step, id: Id)
    requires Inv(s) && id in Next(c, s, step).cells && id !in s.cells
    ensures step.Act? && step.a in Pending(s) && step.a !in Pending(Next(c, s, step))
    ensures Next(c, s, step).cells.Keys == s.cells.Keys + {id}
  {
    NewCell(c, s, step, id);
  }

  lemma LoadStep(c: Consts, s: State, step: Step, k: nat)
    requires Inv(s) && k >= 1 && |Pending(Next(c, s, step))| <= k
    requires Load(s) <= c.maxActive + k - 1
    ensures Load(Next(c, s, step)) <= c.maxActive + k - 1
  {
    hide Next, Inv, ActiveIds, Pending;
    var s' := Next(c, s, step);
    ActiveShrinks(c, s, step);
    if a :| a in Pending(s') && a !in Pending(s) {
      NewlyPending(c, s, step, a);
    } else if id :| id in s'.cells && id !in s.cells {
      InsertLeavesPending(c, s, step, id);
      ActiveKnown(s');
      assert ActiveIds(s'.cells) <= ActiveIds(s.cells) + {id};
      Subset(ActiveIds(s'.cells), ActiveIds(s.cells) + {id});
      Subset(Pending(s'), Pending(s) - {step.a});
    } else {
      ActiveKnown(s');
      Subset(ActiveIds(s'.cells), ActiveIds(s.cells));
      Subset(Pending(s'), Pending(s));
    }
  }

  lemma ActiveKnown(s: State)
    ensures ActiveIds(s.cells) <= s.cells.Keys
  {
  }

  /** At no time are more than `k` creates between their count check and their commit. */
  predicate PendingAtMost(c: Consts, s: State, steps: seq<Step>, k: nat)
    decreases |steps|
  {
    |Pending(s)| <= k && (steps != [] ==> PendingAtMost(c, Next(c, s, steps[0]), steps[1..], k))
  }

  /** The soft cap has a hard bound: if never more than `k` creates are between their count check
      and their commit, then active rows and such creates together never exceed
      `sandbox_max_active + k - 1`, whatever else happens. One at a time gives the hard cap. */
  lemma {:induction false} CapHolds(c: Consts, s: State, steps: seq<Step>, k: nat)
    requires Inv(s) && k >= 1 && PendingAtMost(c, s, steps, k)
    requires Load(s) <= c.maxActive + k - 1
    ensures Load(Run(c, s, steps)) <= c.maxActive + k - 1
    ensures Inv(Run(c, s, steps))
    decreases |steps|
  {
    hide Next, Inv, Load, Pending;
    if steps == [] {
    } else {
      StepKeeps(c, s, steps[0]);
      LoadStep(c, s, steps[0], k) by { hide Next, Inv; assert PendingAtMost(c, Next(c, s, steps[0]), steps[1..], k); }
      CapHolds(c, Next(c, s, steps[0]), steps[1..], k);
    }
  }

  // ---- The idempotency key ----

  ghost predicate ReplyOk(s: State, reply: Reply) {
    reply.Accepted? ==>
      Reached(s, reply.id, 0) && s.cells[reply.id].row.value.key == reply.key
  }

  ghost predicate RepliesOk(s: State) {
    forall a :: a in s.replies ==> ReplyOk(s, s.replies[a])
  }

  lemma NewReply(c: Consts, s: State, step: Step, a: nat)
    requires Inv(s) && a in Next(c, s, step).replies
    ensures
      var s' := Next(c, s, step);
      || (a in s.replies && s'.replies[a] == s.replies[a])
      || ReplyOk(s', s'.replies[a])
  {
    hide StepStart, StepStop, StepSweep, StepDelete, StepCreate, StartInFlight, StopInFlight;
    hide CellsOk, SweepOk, IndexOk, Guarantee;
    if step.Act? && step.a in s.actors {
      var x := s.actors[step.a];
      assert ActorOk(s, x);
      if IsCreate(x) {
        CreateReplies(c, s, x, step.choice);
      }
    } else if step.CreateBegin? {
      ReplayOk(s, step.key);
    }
  }

  lemma CreateReplies(c: Consts, s: State, actor: Actor, choice: Choice)
    requires IndexOk(s) && IsCreate(actor) && ActorOk(s, actor)
    ensures
      var out := StepCreate(c, s.cells, s.keys, s.now, actor, choice);
      out.reply.Some? && out.reply.value.Accepted? ==>
        AtLeast(Look(out.cells, out.reply.value.id), 0) && out.reply.value.id in out.cells
        && Look(out.cells, out.reply.value.id).row.value.key == out.reply.value.key
  {
    hide ActiveIds;
  }

  lemma ReplayOk(s: State, key: Option<Key>)
    requires IndexOk(s)
    ensures key.Some? && key.value in s.keys ==> ReplyOk(s, Accepted(key, s.keys[key.value]))
  {
  }

  lemma RepliesStep(c: Consts, s: State, step: Step)
    requires Inv(s) && RepliesOk(s)
    ensures RepliesOk(Next(c, s, step))
  {
    hide Next, Inv;
    var s' := Next(c, s, step);
    StepKeeps(c, s, step);
    forall a | a in s'.replies ensures ReplyOk(s', s'.replies[a]) {
      NewReply(c, s, step, a);
    }
  }

  lemma {:induction false} RepliesRun(c: Consts, s: State, steps: seq<Step>)
    requires Inv(s) && RepliesOk(s)
    ensures Inv(Run(c, s, steps)) && RepliesOk(Run(c, s, steps))
    decreases |steps|
  {
    hide Next, Inv, RepliesOk;
    if steps == [] {
    } else {
      StepKeeps(c, s, steps[0]);
      RepliesStep(c, s, steps[0]);
      RepliesRun(c, Next(c, s, steps[0]), steps[1..]);
    }
  }

  ghost predicate CarriesKey(s: State, id: Id, key: Key) {
    Reached(s, id, 0) && s.cells[id].row.value.key == Some(key)
  }

  /** The request with handle `a` carried `key` and was answered 202. */
  predicate AcceptedFor(s: State, a: nat, key: Key) {
    a in s.replies && s.replies[a].Accepted? && s.replies[a].key == Some(key)
  }

  /** For any interleaving of creates that share an Idempotency-Key: at most one row carries it,
      every 202 for it names that sandbox, and that sandbox's row exists. */
  lemma KeyNamesOneSandbox(c: Consts, s0: State, steps: seq<Step>, key: Key)
    requires Init(s0)
    ensures
      var s := Run(c, s0, steps);
      && (forall i, j | CarriesKey(s, i, key) && CarriesKey(s, j, key) :: i == j)
      && (forall a, b | AcceptedFor(s, a, key) && AcceptedFor(s, b, key) :: s.replies[a].id == s.replies[b].id)
      && (forall a | AcceptedFor(s, a, key) :: CarriesKey(s, s.replies[a].id, key))
  {
    hide Next, CellsOk, ActorsOk, Run;
    InitHolds(s0);
    RepliesRun(c, s0, steps);
  }

  /** A create that lost the race for its key is never left without the winner's row: the replay
      after the conflict answers 202, not 500. */
  lemma ReplayFindsTheWinner(c: Consts, s0: State, steps: seq<Step>, a: nat, choice: Choice)
    requires Init(s0)
    requires
      var s := Run(c, s0, steps);
      a in s.actors && s.actors[a].CreateReplay?
    ensures
      var s := Run(c, s0, steps);
      var s' := Next(c, s, Act(a, choice));
      a in s'.replies && s'.replies[a].Accepted? && s'.replies[a].key == Some(s.actors[a].wanted)
      && Reached(s', s'.replies[a].id, 0)
  {
    hide Next, CellsOk, Run, Init;
    InitHolds(s0);
    RunKeeps(c, s0, steps);
    var s := Run(c, s0, steps);
    assert ActorOk(s, s.actors[a]);
    ReplayAnswers(c, s, a, choice);
  }

  lemma ReplayAnswers(c: Consts, s: State, a: nat, choice: Choice)
    requires IndexOk(s) && a in s.actors && s.actors[a].CreateReplay? && s.actors[a].wanted in s.keys
    ensures
      var s' := Next(c, s, Act(a, choice));
      && s'.cells == s.cells && a in s'.replies
      && s'.replies[a] == Accepted(Some(s.actors[a].wanted), s.keys[s.actors[a].wanted])
      && Reached(s', s'.replies[a].id, 0)
  {
  }

  // ---- Stop jobs ----

  /** A stop job, queued or running, or a DELETE about to enqueue one, always means that the sandbox
      is stopping or already terminal, and a stop run that reports success leaves it terminal. */
  lemma StopsAreJustified(c: Consts, s0: State, steps: seq<Step>, id: Id)
    requires Init(s0)
    ensures
      var s := Run(c, s0, steps);
      && (Get(s, id).stopJob.Some? ==> Matches(Get(s, id).row, NO_CONTAINER_WANTED))
      && (forall a :: a in s.actors && IsStop(s.actors[a], id) ==> Matches(Get(s, id).row, NO_CONTAINER_WANTED))
      && (forall a, choice :: a in s.actors && IsStop(s.actors[a], id) && s.actors[a].spc.Mark? ==>
            Matches(Get(Next(c, s, Act(a, choice)), id).row, {Stopped, Failed}))
  {
    hide Next, IndexOk, Run;
    InitHolds(s0);
    RunKeeps(c, s0, steps);
    var s := Run(c, s0, steps);
    forall a, choice | a in s.actors && IsStop(s.actors[a], id)
      ensures Matches(Get(s, id).row, NO_CONTAINER_WANTED)
      ensures s.actors[a].spc.Mark? ==> Matches(Get(Next(c, s, Act(a, choice)), id).row, {Stopped, Failed})
    {
      assert ActorOk(s, s.actors[a]);
      if s.actors[a].spc.Mark? {
        MarkEnds(c, s, a, choice, id);
      }
    }
  }

  lemma MarkEnds(c: Consts, s: State, a: nat, choice: Choice, id: Id)
    requires a in s.actors && IsStop(s.actors[a], id) && s.actors[a].spc.Mark? && Reached(s, id, 2)
    ensures Matches(Get(Next(c, s, Act(a, choice)), id).row, {Stopped, Failed})
  {
  }
}
