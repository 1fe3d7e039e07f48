# The sandbox lifecycle protocol

A Dafny model of the sandbox orchestrator: an API that records intents in Postgres, a worker that
runs start and stop jobs against a Docker daemon, and a reconcile sweep that makes the two agree.
They share rows, containers and jobs, and coordinate only through compare-and-set writes on a
row's status. `dafny verify dfyconfig.toml` checks the project.

There are two views of the same code.

* **The protocol** (`Protocol.dfy`) is the whole service as a step system. Its state holds, per
  sandbox id, the row, the container and the two jobs; then the unique index on the idempotency
  key, the handlers in flight, the clock, the outcome counters and the answers given. Every `await`
  is a step boundary. The environment may crash handlers, deliver jobs again, make launches,
  removals, listings and enqueues fail (an enqueue also after it took place), kill containers or
  let them exit, and choose every interleaving. `Consts.serial` picks the delivery regime: with it
  a job is never run twice at the same time; without it a job may be delivered again while it runs.
* **The programs** (`Service.dfy`, `Worker.dfy`, `Routes.dfy`, `Reaper.dfy`) are the handlers as
  imperative methods over a class with one mutable table for rows, containers and jobs each. At
  every `await` they yield to arbitrary steps of others, and a call fails only if the environment
  makes it fail. Each is proved to take exactly the steps of its actor in the protocol, so every
  theorem about runs is a theorem about the programs.

The files, bottom up:

| file | subject |
|---|---|
| `Lifecycle.dfy`, `Protocol.dfy` | the data, the handlers await by await, runs |
| `Invariant.dfy`, `Locality.dfy` | what holds under any regime; what others may do to a sandbox |
| `Serial.dfy`, `Verdicts.dfy`, `Progress.dfy` | the serial regime; sweep decisions; sweep progress |
| `Crew.dfy`, `Care.dfy`, `FastPath.dfy`, `Budget.dfy` | one sandbox and its handlers: which process deaths lose a start, the fast path agrees, start work is bounded |
| `Outcomes.dfy`, `Admission.dfy`, `Tightness.dfy`, `Idempotency.dfy` | counters, URL, terminal rows; cap and idempotency key; the cap bound is attained; one start per key |
| `Sweep.dfy`, `Quiet.dfy` | the declared result of a sweep, its algebra, and the loops that compute it |
| `SafetyNet.dfy` | when one sweep after a serial run brings agreement |
| `Ledger.dfy`, `History.dfy` | every change to rows, containers and jobs, and who makes it; what must have happened before a row is running, and what its request asked for |
| `Service.dfy`, `Worker.dfy`, `Routes.dfy`, `Reaper.dfy`, `SweepCounts.dfy` | the programs; what a sweep reports under interference |
| `Settings.dfy` | the time budget of a start attempt |
| `Witnesses.dfy`, `SweepWitnesses.dfy` | concrete runs that show where the guarantees end |

The step functions have no row below, since they only compute: `StepStart` is
`app/worker.py:97-193` with `app/runtime.py:99-139`, `StepStop` is `app/worker.py:196-229`,
`StepSweep` is `app/worker.py:232-296`, `StepCreate` is `app/routes/sandboxes.py:61-123`,
`StepDelete` is `app/routes/sandboxes.py:139-174`, `BeginStart` and `BeginStop` are a pickup by the
queue (`app/worker.py:340`), `Enqueue` is `app/queue.py:29-53`. The methods of the four program files
are tied to them.

## Where code and documentation differ

* `README.md:113` of the repository says that a container killed underneath its sandbox gets the row
  failed. The listing asks for all containers (`app/runtime.py:87`), so one that has exited still
  counts as there. `SweepWitnesses.ExitedStaysRunning` is a run in which a whole sweep leaves such a
  row `running`; `SweepSpec.OnlyAbsentContainersFail` states when the promise holds, and
  `Verdicts.ExitedIsNotNoticed` that no sweep of any serial run touches such a row until the time in
  the label has come.
* `README.md:66` says that status changes are compare-and-set. The write after a failed enqueue is
  not (`app/routes/sandboxes.py:118`), so a stopped row can become failed
  (`Witnesses.PlainWriteOverwritesStopped`). `Outcomes.TerminalRowsRest` says exactly when a terminal
  row changes; without a failed enqueue it never does (`Outcomes.StoppedIsFinal`).
* "The next sweep is the retry" (`app/worker.py:333`) holds after a removal that failed without
  effect. It does not hold for a sweep that ends between a removal that took effect, whether it then
  died or the call raised all the same, and the write that marks the row, if that row still wanted its
  container: then a running sandbox is failed instead of stopped, and a queued or starting one
  keeps its slot. `SweepSpec.RerunRepairs` and `QuietSweep.DiesThenRerun` state this for all tables,
  `SweepWitnesses.KilledSweepFailsExpired` and `SweepWitnesses.KilledSweepStrandsStarting` are runs.
* The settings validator charges one command timeout for each of the two status writes
  (`app/config.py:57`) and says that this suffices (`app/config.py:54-56`). A write is two awaits,
  statement and commit (`app/worker.py:63-68`), the driver's timeout bounds one command
  (`app/db.py:22`), and the read that opens the handler is not charged. The defaults are accepted and
  do not fit (`Config.DefaultsDoNotFit`); `Config.EveryAwaitNeedsRoom` is the exact condition, and
  `Config.AcceptedMeansItFits` names the assumption under which the validator is right.
* The failure counter of start jobs also counts last tries that lost their row to somebody else
  (`Outcomes.FailureAlsoCountsLostRaces`, `Witnesses.DeleteDuringLastTryCounts`).
* "Any failure retries, then fails visibly: a sandbox must never be left in starting"
  (`app/worker.py:141-142`) is not unconditional. In serial runs a queued or starting sandbox is left
  with nobody to see to its start if and only if a process death lost that start: the creating request
  died before its enqueue; it died before its failing write and the queue would not deliver the job;
  or a start run died on its last try, or was not redelivered, after the request was gone
  (`Care.NothingGetsStuck`, the two cases of `README.md:136` made exact). All other deaths do no harm.
  `Witnesses.CrashLeavesStarting` is such a run. Without serial delivery overlapping tries can strand
  a queued row without any death (`Witnesses.OverlapStrandsQueued`).

## Model

| member | source | states |
|---|---|---|
| Lifecycle.Label | app/runtime.py:115-118 | the label is the expiry rounded down to a whole second |
| Invariant.StepKeeps | app/worker.py:59-69 | every step of every actor, in any state that satisfies the invariant, keeps it and guarantees to all others: no row vanishes, changes its identity or comes back to an earlier stage, no key is rebound, the clock does not go back |
| Invariant.RunKeeps | app/worker.py:7-10 | no resurrection over whole runs, for any interleaving, faults, duplicates and regime |
| Invariant.InitHolds | app/models.py:48-69 | an empty service satisfies the invariant |
| Invariant.SweepPicture | app/worker.py:246-261 | what a sweep has read is at most too early in a row's life, never too late |
| Locality.StepOnCell | app/worker.py:59-69 | nobody but its own start run does more to a known sandbox than move it to stopping or beyond, remove its container for a reason, or let it exit |
| Locality.RemovalJustified | app/worker.py:262-270 | a stale decision to remove is right when it is carried out |
| Locality.NewCell | app/routes/sandboxes.py:93-103 | a sandbox comes into being only by the insert, queued, without container and jobs |
| Verdicts.OrphansAreUnwanted | app/worker.py:256-270 | when a sweep removes an unexpired container, its row is not queued, starting or running, under overlap and double sweeps too |
| Verdicts.VanishedIsGone | app/worker.py:246-283 | in serial runs, a row about to be failed as "container disappeared" has no container |
| Verdicts.SweepIsJustified | app/worker.py:262-290 | at every await of every sweep, a removed container is expired or unwanted, and a written row was stopping, outlived its expiry, or was running (in the serial regime without a container) |
| Verdicts.ExitedIsNotNoticed | app/runtime.py:84-97 | in serial runs no step of any sweep writes a running row whose container exists, up or not, before the time in its label |
| Verdicts.LiveIsNotKilled | app/worker.py:144-176 | in serial runs no step of the system removes the unexpired container of a running sandbox |
| Verdicts.RunningIsBacked | app/worker.py:163-171 | in serial runs in which its container did not die by itself, a running row without a container is past its label, and with one its URL is that container's |
| Progress.StopsAreFinished | app/worker.py:284-290 | whatever others do, a row stopping when a sweep begins is terminal when that sweep completes |
| Progress.LossesAreNoticed | app/worker.py:275-283 | in serial runs, a row running without a container when a sweep begins is not running when it completes |
| Progress.LifetimesAreEnforced | app/worker.py:262-283 | whatever others do, in either regime, a row running past its label when a sweep begins is not running when it completes |
| Progress.LeaksAreRemoved | app/worker.py:262-274 | whatever others do, in either regime, a container whose row is stopping, terminal or missing when a sweep begins, with no start run past its read, is gone when it completes |
| Serial.SerialStep | app/worker.py:337-345 | one run per job at a time is kept, and with it: a start run never launches for a row past starting, a lost container stays lost, the URL fits |
| Serial.OneRunStep | app/queue.py:40-42 | under serial delivery no two runs of one job are ever in flight |
| Care.NothingGetsStuck | app/worker.py:140-162 | in serial runs with any process deaths, a queued or starting row has no start run, no creating request and no job with tries left if and only if a death of the run lost its start; so when all is quiet, every other start has ended in running, failed, or where another actor moved the row |
| Care.CaredStep | app/worker.py:336-345 | one step of any actor, a process death included: a waiting sandbox becomes forlorn exactly when the step loses its start, and a forlorn one stays so |
| Care.CaredRun | app/routes/sandboxes.py:70-72 | the same over whole serial runs, from any state |
| FastPath.FastPathAgrees | app/worker.py:129-225 | serial runs without faults and sweeps, but with launch failures, retries and DELETEs, end with every row running, stopped or failed and containers exactly for the running ones |
| FastPath.FastPathFromScratch | app/routes/sandboxes.py:147-172 | the same from an empty service |
| FastPath.TidyStep | app/worker.py:163-176 | every fault-free step keeps the ownership invariant: a container of a stopping or terminal row is owed to a start run, a stop job or a DELETE |
| FastPath.AgreesIffTidy | app/worker.py:206-225 | with nobody at work the ownership invariant is exactly the agreement |
| Budget.StepPays | app/worker.py:137-162 | every step pays for the start work, launches and enqueues it does out of a budget nothing adds to |
| Budget.StartWorkIsBounded | app/worker.py:340 | for any deliveries, crashes and duplicates: at most `job_max_tries` launches, one enqueue, and a bounded number of start steps per sandbox |
| Outcomes.NoteMeans | app/worker.py:149-177 | success and retry are counted exactly by the run whose own write promoted or requeued the row |
| Outcomes.FailureMeans | app/worker.py:148-161 | given its row, a start run counts a failure when its own write failed the row, and when its last try settles a row that is not starting any more |
| Outcomes.GivenUpBy | app/worker.py:157-160 | one step of any actor: the rows given up are exactly the one failed by the run that counts it |
| Outcomes.FailureAlsoCountsLostRaces | app/worker.py:157-161 | over whole runs the failure counter equals the rows given up by start runs plus the last tries that settled after somebody else had moved the row on |
| Outcomes.CountersCountTransitions | app/worker.py:149-177 | over whole runs successes equal starting to running transitions, retries equal starting to queued ones |
| Outcomes.StartedAtMostOnce | app/worker.py:48-50 | a sandbox enters running at most once, for any deliveries and crashes |
| Outcomes.UrlIffEverRan | app/models.py:59 | a row has a URL exactly if it has ever been running |
| Outcomes.TerminalRowsRest | app/routes/sandboxes.py:115-119 | exactly what any step leaves of a terminal row: failed with the enqueue error after the plain write, unchanged otherwise; so a stopped row changes if and only if that write lands |
| Outcomes.TerminalRowsStay | app/worker.py:7-10 | in runs in which no enqueue of a start job fails, a terminal row stays exactly as it is |
| Outcomes.StoppedIsFinal | app/worker.py:7-10 | the same from the start of the service, for a row that is stopped at any time |
| Admission.CapHolds | app/routes/sandboxes.py:80-103 | with never more than k creates between count and commit, active rows plus such creates stay within `sandbox_max_active + k - 1` |
| Admission.LoadStep | app/models.py:42-45 | one step keeps that bound; it rests on no transition making a terminal row active |
| Admission.ActiveShrinks | app/worker.py:271-290 | no step makes a known row active again |
| Admission.KeyNamesOneSandbox | app/routes/sandboxes.py:74-79 | for any interleaving, at most one row carries a key and every 202 for it names that sandbox |
| Admission.ReplayFindsTheWinner | app/routes/sandboxes.py:104-108 | the replay after a lost insert always finds the winner's row |
| Admission.StopsAreJustified | app/worker.py:206-225 | a queued or running stop job means a stopping or terminal row, and a stop run that gets to its write leaves it terminal |
| Idempotency.OneStartPerKey | app/routes/sandboxes.py:74-79 | for any interleaving, deliveries and deaths: at most one start job is ever enqueued for a key, and the sandbox that every 202 for it names is its only carrier and launched at most `job_max_tries` times |
| Ledger.RowLedger | app/worker.py:121-290 | for every step of every actor, exactly what it makes of a known row, written out column by column: which await writes, under which status, and that nothing else touches a row |
| Ledger.NewRowLedger | app/routes/sandboxes.py:93-103 | the row that comes into being is queued with no attempt, URL or error, and has the key, the expiry and the pool of the request that inserts it |
| Ledger.StopsDoNotFail | app/worker.py:219-222 | of all steps of the system only the plain write takes a row from stopping to failed, and it always does; every other step leaves it stopping or stopped |
| Ledger.StopsEndStopped | app/worker.py:219-225 | over whole runs without a failed start enqueue, a row that is stopping and later terminal is stopped |
| Ledger.BoxLedger | app/runtime.py:99-139 | for every step, exactly what becomes of a container: created with the label and the port of the launch, removed by the call that succeeded, or left alone |
| Ledger.JobLedger | app/queue.py:33-53 | for every step, exactly what becomes of the two jobs: enqueued once on the pool asked for with no try used, one try more with each delivery, kept by a run that is to be retried and by a redelivered crash, gone otherwise |
| Ledger.DeliveryLedger | app/worker.py:336-345 | a delivery begins a run at its first await on the try that it used up, exactly while tries are left and, in the serial regime, no run is in flight |
| History.RunningWasProbed | app/runtime.py:75-78 | over whole runs, in any regime, a row enters running only by a start run whose readiness probe has succeeded on a container that was up, with the URL of that probe |
| History.PromoteWasProbed | app/runtime.py:154-172 | the same for any run that has come to its promotion |
| History.RowsAreAsRequested | app/routes/sandboxes.py:90-100 | over whole runs, every row carries the key of its request, expires that request's TTL after its routing, and is on the pool that the routing answered |
| History.InsertWasRouted | app/routes/sandboxes.py:90-91 | a create about to insert has been routed, and its expiry is the clock of that step plus its TTL |
| Tightness.CapIsTight | app/routes/sandboxes.py:80-103 | for every cap of at least 1 and every k there is a run that reaches `sandbox_max_active + k - 1` active rows |
| SweepSpec.SweepConverges | app/worker.py:233-235 | the result of a sweep is the one table that satisfies the declaration of convergence, and no other |
| SweepSpec.CountsAreRemovals | app/worker.py:237-283 | expired plus orphan are the containers removed, vanished the rows failed |
| SweepSpec.BoxesAreActive | app/worker.py:262-274 | after a sweep only active rows have containers |
| SweepSpec.LaterSweepAbsorbs | app/worker.py:232-296 | a sweep followed by a later one is the later one alone |
| SweepSpec.SecondSweepIsIdle | app/worker.py:327 | a second sweep at the same time changes nothing and reaps nothing |
| SweepSpec.RerunRepairs | app/worker.py:270-274 | a sweep cut off anywhere and rerun ends where a single one does, if and only if it was not cut between a removal and the mark of a row that wanted the container; then a running row is failed instead of stopped, and a queued or starting one unchanged instead of stopped |
| SweepSpec.FailedRemovalIsRepaired | app/worker.py:291-294 | a removal that fails without effect only delays the rest |
| SweepSpec.OnlyAbsentContainersFail | app/runtime.py:84-97 | an undisturbed sweep fails a running row if and only if its container is absent; one that exited and is unexpired leaves the row as it is |
| SweepSpec.HostLoadBound | app/worker.py:262-290 | after an undisturbed sweep the containers are at most the active rows, hence at most `sandbox_max_active + k - 1` |
| QuietSweep.QuietStep | app/worker.py:262-290 | each await of an undisturbed sweep is where the declaration says; the last one leaves the declared state and counts |
| QuietSweep.UndisturbedSweep | app/worker.py:244-296 | any number of awaits of an undisturbed sweep, with any outcomes and any listing order: on its way, converged, or aborted with half its work done |
| QuietSweep.QuietIsCut | app/worker.py:244-295 | wherever it stops, the state is a cut as the algebra describes it |
| QuietSweep.DiesThenRerun | app/worker.py:270-274 | for a sweep that died at any await: when the next one repairs it, when not, and what it leaves then |
| QuietSweep.AbortThenRerun | app/worker.py:291-294 | a sweep aborted by a call that failed without effect is always repaired by the next one |
| QuietSweep.AllDecided | app/worker.py:262-269 | the loop over the listing decides to remove exactly the declared containers |
| SafetyNet.SweepBringsAgreement | app/worker.py:233-235 | a sweep of any table brings rows and containers to agreement if and only if no row waits for a start, those with an expired container apart |
| SafetyNet.ReaperIsSafetyNet | app/worker.py:7-10 | after any serial run, with any process deaths and whatever else failed, once nobody is at work a sweep at time t brings agreement if and only if no sandbox is still waiting for a start that a death has lost, those with an expired container apart |
| SafetyNet.SweepActorIsSafetyNet | app/worker.py:232-296 | the same for the sweep as the actor it is, await by await |
| Config.AcceptedMeansItFits | app/config.py:52-60 | if statement and commit of a write end within one command timeout together, the validator accepts exactly the settings under which a failing attempt is settled in time, from its claim on |
| Config.EveryAwaitNeedsRoom | app/worker.py:63-68 | without that assumption a failing attempt is sure to settle in time if and only if launch, cleanup and four command timeouts fit from the claim on, five with the opening read |
| Config.EveryCommandNeedsRoom | app/db.py:15-23 | for any number of commands that the driver sends, exactly that many command timeouts must fit |
| Config.DefaultsDoNotFit | app/config.py:21-40 | the defaults are accepted, and an attempt of 100 seconds against a job timeout of 90 is possible: it is cancelled after its claim and before it has settled its row |
| Config.BackoffsIncrease | app/worker.py:155-156 | successive deferrals strictly increase, whatever the jitter |
| Config.TriesEndInTime | app/worker.py:156 | n tries with immediate pickup take at most n job timeouts plus 2^n - 2 plus n - 1 seconds |
| ServiceCode.Service.Transition | app/worker.py:59-69 | writes the given columns and reports true exactly if the status matched; nothing else changes |
| ServiceCode.Service.Remove | app/runtime.py:80-82 | the container is gone afterwards, and the answer says whether there was one |
| ServiceCode.Service.ListSandboxes | app/runtime.py:84-97 | one entry per container in the daemon's order, with its label |
| ServiceCode.Service.EnqueueStart | app/queue.py:33-53 | a start job is live afterwards: the one that was, untouched, or a new one on the given pool with no try used |
| ServiceCode.Service.EnqueueStop | app/queue.py:33-53 | the same for stop jobs |
| ServiceCode.Service.InsertRow | app/routes/sandboxes.py:101-103 | adds the row and its entry in the unique index, and nothing else |
| ServiceCode.Service.Yield | app/worker.py:59-69 | during an await the table changes as the others' steps say, and the waiting handler is not touched |
| ServiceCode.OthersKeepMeRun | app/worker.py:59-69 | no run of others touches a waiting handler or forgets an id |
| WorkerCode.StartSandbox | app/worker.py:97-193 | takes exactly the steps of a start run under arbitrary interference; its return value is the one that its last await calls for and says what the row is then; it says "running" only after a probe that succeeded; under serial delivery "cancelled" means that the sandbox was stopped, is stopping or has failed |
| WorkerCode.ReadRow | app/worker.py:110-121 | the three ways out of the opening read, each exactly when the row met calls for it |
| WorkerCode.ExpireRow | app/worker.py:121-128 | a startable row is stopped with its reason, any other is left alone |
| WorkerCode.ClaimRow | app/worker.py:129-132 | true exactly if the row met was startable; then it is starting with this try and otherwise unchanged |
| WorkerCode.LaunchSandbox | app/runtime.py:75-78 | creates or reuses, then probes; ends with a port to promote only if the probe succeeded, otherwise in the failure path |
| WorkerCode.InspectBox | app/runtime.py:103-105 | absent, up, or left over |
| WorkerCode.ClearBox | app/runtime.py:105-107 | removes the very container that was inspected, or fails |
| WorkerCode.LaunchBox | app/runtime.py:108-139 | creates the container under its deterministic name, reuses one created meanwhile, or fails |
| WorkerCode.ProbeBox | app/runtime.py:154-172 | a port to promote if and only if the probe succeeds and a container is up; nothing else changes |
| WorkerCode.PromoteRow | app/worker.py:163-177 | true exactly if the row met was starting; then it is running with this URL and no error |
| WorkerCode.Discard | app/worker.py:72-80 | best effort: if the call succeeds no container is left |
| WorkerCode.SettleRow | app/worker.py:148-162 | a starting row is requeued, or failed on the last try; any other is left alone; counted as retry or failure accordingly |
| WorkerCode.ConcludeLaunched | app/worker.py:163-177 | after a launch: running, or discarded because the row was lost |
| WorkerCode.ConcludeFailed | app/worker.py:140-162 | after a failed launch: discarded and settled |
| WorkerCode.ConcludeStart | app/worker.py:140-177 | what the two ends of a launch leave, and under serial delivery who took the row if the run gives way |
| WorkerCode.Overtaken | app/worker.py:129-176 | under serial delivery a lost claim, a lost settling write and a lost promotion mean that the row is stopping or terminal |
| WorkerCode.StopSandbox | app/worker.py:196-229 | takes exactly the steps of a stop run under arbitrary interference; it succeeds exactly if the removal does, and then a row that its last await met stopping is stopped, any other is as it was met; in a reachable state success means that the row is terminal |
| WorkerCode.StopConcludes | app/worker.py:219-223 | after its mark a stop run leaves its row terminal, whatever others did |
| WorkerCode.RemoveStopped | app/worker.py:207-218 | the removal and the three ways on |
| WorkerCode.MarkStoppedRow | app/worker.py:219-223 | a row met stopping is stopped, with nothing else changed; any other row is unchanged |
| RoutesCode.CreateSandbox | app/routes/sandboxes.py:61-123 | takes exactly the steps of a create under arbitrary interference: a known key is replayed without a write, a full service refuses, a lost race never ends in an error, an accepted request names a row that carries its key; a row made by this request has its key, the pool of the routing answer and an expiry between the TTL after the begin and the TTL after the end, and it is accepted, or, exactly if the enqueue was reported as failed, failed with a 503 |
| RoutesCode.BeginCreate | app/routes/sandboxes.py:78-79 | the replay of a known key |
| RoutesCode.CountActive | app/routes/sandboxes.py:80-89 | refuses exactly if the active rows reach the cap |
| RoutesCode.RouteStart | app/routes/sandboxes.py:90-92 | the pool is the router's, the expiry is now plus the TTL |
| RoutesCode.InsertSandbox | app/routes/sandboxes.py:93-105 | a new row, queued without URL, error and attempts, with exactly the given key, expiry and pool; or none if the key is taken |
| RoutesCode.ReplayWinner | app/routes/sandboxes.py:50-58 | names the sandbox that has the key, or none |
| RoutesCode.EnqueueStartJob | app/routes/sandboxes.py:111-117 | a new start job on the given pool with no try used unless one is live, exactly if the call took place; accepted exactly if it was reported as done |
| RoutesCode.FailSandbox | app/routes/sandboxes.py:115-120 | the row is failed with the enqueue error whatever its status was, and nothing else of it changes |
| RoutesCode.AdmitSandbox | app/routes/sandboxes.py:80-105 | count, routing and insert under interference; a row made here is queued, with the request's key and the routed pool, and expires between the TTL after the call and the TTL after its end |
| RoutesCode.CommitSandbox | app/routes/sandboxes.py:90-105 | routing and insert under interference: a queued row with the request's key, the routed pool and an expiry within the same bounds, or the loss of the race for the key |
| RoutesCode.ReplayLate | app/routes/sandboxes.py:104-107 | the loser of the race answers with the sandbox that has the key |
| RoutesCode.PublishSandbox | app/routes/sandboxes.py:109-123 | accepted with a live start job, or, exactly if the enqueue was reported as failed, 503 and a failed row |
| RoutesCode.DeleteSandbox | app/routes/sandboxes.py:139-174 | takes exactly the steps of a DELETE under arbitrary interference: in a reachable state it answers "not found" if and only if the id was unknown; a terminal row is answered as it is; otherwise the answer is the one that its last await calls for, the row itself if the refresh found it settled some other way; an accepted stop has its job enqueued |
| RoutesCode.BeginDelete | app/routes/sandboxes.py:147-149 | only active rows are worked on |
| RoutesCode.MarkStopping | app/routes/sandboxes.py:150-155 | an active row is stopping, with nothing else changed; any other is left alone |
| RoutesCode.Refresh | app/routes/sandboxes.py:156-158 | answers the row met, and goes on exactly if it is stopping |
| RoutesCode.RouteStop | app/routes/sandboxes.py:159-161 | any pool may be asked |
| RoutesCode.HandOverStop | app/routes/sandboxes.py:159-174 | accepted with a live stop job, or 503 exactly if the enqueue was reported as failed |
| RoutesCode.EnqueueStopJob | app/routes/sandboxes.py:162-174 | a new stop job on the given pool with no try used unless one is live, exactly if the call took place |
| ReaperCode.ReconcileSandboxes | app/worker.py:232-296 | takes exactly the steps of a sweep under arbitrary interference; its counts are those of its own removals and of the rows that its own writes took from running to failed, completed or aborted; on success every pending stop it found is done, every lifetime it found over is enforced, every leak it found is removed and, in the serial regime, every loss noticed; undisturbed it leaves exactly the declared state and counts in any listing order; it fails only if a Docker call does |
| ReaperCode.TakeSnapshot | app/worker.py:246-253 | the rows running now |
| ReaperCode.ListContainers | app/worker.py:254-255 | every container once, or an abort |
| ReaperCode.ReadStatuses | app/worker.py:256-260 | the statuses of the listed ids |
| ReaperCode.ReadClock | app/worker.py:261 | one clock value for all decisions |
| ReaperCode.SkipListed | app/worker.py:268-269 | nothing but the loop index changes |
| ReaperCode.RemoveListed | app/worker.py:270 | the container is gone, or the sweep is aborted |
| ReaperCode.MarkListed | app/worker.py:271-274 | an active row is stopped, any other left alone; the removal is counted as expired exactly if the label was over, else as orphan |
| ReaperCode.FailLost | app/worker.py:275-283 | a row met running is failed and counted as vanished; any other is left alone and not counted |
| ReaperCode.FinishStops | app/worker.py:284-290 | every row met stopping without a listed container is stopped, and nothing else changes |
| ReaperCode.GatherPicture | app/worker.py:246-261 | the four reads under interference |
| ReaperCode.ReapListed | app/worker.py:262-274 | the first loop under interference |
| ReaperCode.FailVanished | app/worker.py:275-290 | the second loop and the bulk update under interference |
| SweepCounts.SweepReportsItsWrites | app/worker.py:237-283 | over any run with any others at work, a sweep that ends, completed or aborted, reports exactly the containers that it removed and came to mark, by the reason it had, and the rows that its own writes took from running to failed |
| SweepCounts.CountsRun | app/worker.py:239-242 | the counts grow with those writes and with nothing else |
| Witnesses.OverlapBreaksRunning | app/worker.py:140-171 | without the serial regime a row can be running, unexpired, without a container, although none died |
| Witnesses.ListingFirstBreaksVerdicts | app/worker.py:246-254 | with the two reads of a sweep swapped, a healthy sandbox would be failed |
| Witnesses.OverlapStrandsQueued | app/worker.py:148-162 | without the serial regime a row can end queued with nobody at work and no job, although no process died |
| Witnesses.DeleteDuringLastTryCounts | app/worker.py:157-161 | a DELETE during the last try: the failure counter is 1 and no row was given up |
| Witnesses.CrashLeavesStarting | README.md:136 | for every number of tries, a death on the last one leaves a starting row with nobody at work, which no sweep at any time changes |
| Witnesses.PlainWriteOverwritesStopped | app/routes/sandboxes.py:115-119 | a stopped row can become failed |
| SweepWitnesses.OverlappingSweepsCountTwice | app/worker.py:270-274 | two overlapping sweeps can count one removed container twice |
| SweepWitnesses.ExitedStaysRunning | app/runtime.py:84-97 | a container exits, a whole sweep passes, and the row is still running |
| SweepWitnesses.KilledSweepFailsExpired | app/worker.py:270-274 | a sweep dies after removing the container of an expired running sandbox; the next one fails the row that a single one would have stopped |
| SweepWitnesses.KilledSweepStrandsStarting | app/worker.py:270-274 | the same for an abandoned starting sandbox: the row stays starting, without container and job, and no later sweep changes it |

## Left out

- Docker, Postgres, Redis and arq are abstract: a unique container name, one atomic compare-and-set per statement, a unique column, and one live job per job id across both queues while it is queued or running.
- A delivery of the serial regime (at most one run per job id at a time) is an assumption about the queue; the overlapping regime drops it.
- Docker calls that outlive their deadline: a call that timed out has no later effect (limitation 7 of the repository's documentation).
- Database exceptions in a handler are crashes of that handler, with or without redelivery; the enqueue and Docker calls have failure branches of their own.
- A removal (look up, then remove) and a create (create, start, read the port) are one atomic step each; a create that fails after the start is a create followed by a failing probe.
- The readiness probe is one await that succeeds or fails, not a polling loop; the URL is represented by its host port.
- The routing of `app/rollout.py`: the pool is an arbitrary answer at each enqueue.
- Ids are fresh at the insert; a repeated uuid4 is not modelled, and neither are deleted rows, which the service does not have.
- Malformed container labels, and negative settings.
- HTTP wiring and validation, read-only endpoints, logging, tracing, histograms and gauges, container hardening, health checks, deployment files.
- Rows that are queued or starting without a job after a process death or overlapping tries: nothing sweeps them, and no guarantee is claimed (`Witnesses.CrashLeavesStarting`, `Witnesses.OverlapStrandsQueued`).
- Care.NothingGetsStuck: needs serial delivery, which `Witnesses.OverlapStrandsQueued` shows to be necessary.
- QuietSweep.AbortThenRerun: a removal that raises after the container is gone is not a step of its own; its effect is that of a sweep that dies after the removal (`SweepSpec.RerunRepairs`, `QuietSweep.DiesThenRerun`).
- Outcomes.CountersCountTransitions: does not model a process death between a committed write and the counter increment that follows it; the two are one step.
- Config.AcceptedMeansItFits: assumes what the validator assumes, that the statement and the commit of a write share one command timeout; without it see `Config.EveryAwaitNeedsRoom`.
- Config.EveryAwaitNeedsRoom: counts the five awaits of the handler; commands that the driver adds (start of a transaction, ping of a pooled connection) and waiting for a connection are left to `Config.EveryCommandNeedsRoom`.
- Config.TriesEndInTime: assumes immediate pickup after each deferral, since the queue gives no bound on waiting.
- FastPath.FastPathAgrees: does not cover crashes, failed removals, failed enqueues and external deaths of containers, for which the sweep exists.
- ReaperCode.ReconcileSandboxes: keeps the local variables of the sweep in one record and does not model the log lines and the run counter.
