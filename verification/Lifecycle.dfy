/** The shared data of the orchestrator: what Postgres, Docker and the queue hold about one
    sandbox, and the compare-and-set write on which all actors coordinate. */
module Lifecycle {

  datatype Option<+T> = None | Some(value: T)

  /** A uuid4. */
  type Id = nat

  /** A client-supplied Idempotency-Key. */
  type Key = string

  /** Microseconds since the epoch, the resolution of a Python datetime. */
  type Time = nat

  const SECOND: nat := 1_000_000

  /** The expiry label of a container: the expiry floored to the second, because the label
      stores `int(timestamp)`. */
  function Label(expiresAt: Time): (floor: Time)
    ensures floor <= expiresAt < floor + SECOND && floor % SECOND == 0
  {
    expiresAt / SECOND * SECOND
  }

  datatype Pool = Stable | Canary

  datatype Status = Queued | Starting | Running | Stopping | Stopped | Failed

  const ACTIVE: set<Status> := {Queued, Starting, Running, Stopping}
  const STARTABLE: set<Status> := {Queued, Starting}
  const NO_CONTAINER_WANTED: set<Status> := {Stopping, Stopped, Failed}

  /** The order in which a sandbox lives its life. `Queued` and `Starting` share a stage, since a
      retry goes back to `Queued`; the two terminal statuses share the last one. */
  function Stage(status: Status): nat {
    match status
    case Queued => 0
    case Starting => 0
    case Running => 1
    case Stopping => 2
    case Stopped => 3
    case Failed => 3
  }

  /** Why a row carries an error text. */
  datatype Reason = LaunchFailed | ExpiredInQueue | ContainerDisappeared | EnqueueFailed

  /** A row of the `sandboxes` table. The URL is represented by its published host port. */
  datatype Row = Row(
    status: Status,
    url: Option<nat>,
    error: Option<Reason>,
    attempts: nat,
    pool: Pool,
    expiresAt: Time,
    key: Option<Key>)

  /** A container, found by its deterministic name. It exists until it is removed; `up` is false
      when it was created but never started, or has exited. */
  datatype Box = Box(expiry: Time, up: bool, port: nat)

  /** A live job of the queue: queued on `pool`, or running. `tries` is raised on every pickup. */
  datatype Job = Job(pool: Pool, tries: nat)

  /** Everything about one sandbox id: its row, its container, and its live jobs
      `start_sandbox:{id}` and `stop_sandbox:{id}`. Names and job ids are deterministic, so
      there is at most one of each. */
  datatype Cell = Cell(row: Option<Row>, box: Option<Box>, startJob: Option<Job>, stopJob: Option<Job>)

  /** True if a compare-and-set expecting a status in `from` takes effect. */
  predicate Matches(row: Option<Row>, from: set<Status>) {
    row.Some? && row.value.status in from
  }

  function SetStatus(row: Option<Row>, from: set<Status>, status: Status): Option<Row> {
    if Matches(row, from) then Some(row.value.(status := status)) else row
  }

  function SetFailure(row: Option<Row>, from: set<Status>, status: Status, reason: Reason): Option<Row> {
    if Matches(row, from) then Some(row.value.(status := status, error := Some(reason))) else row
  }

  /** A deterministic job id: enqueueing while the job is queued or running changes nothing,
      whichever pool is asked. */
  function Enqueue(job: Option<Job>, pool: Pool): Option<Job> {
    if job.Some? then job else Some(Job(pool, 0))
  }

  /** The row exists and has reached `stage`. */
  predicate AtLeast(cell: Cell, stage: nat) {
    cell.row.Some? && stage <= Stage(cell.row.value.status)
  }

  /** What a row may never do: appear under a used id, disappear, come back to an earlier stage,
      change its identity. */
  ghost predicate Grows(cell: Cell, cell': Cell) {
    && cell.row.Some? == cell'.row.Some?
    && (cell.row.Some? ==>
          && cell'.row.value.expiresAt == cell.row.value.expiresAt
          && cell'.row.value.key == cell.row.value.key
          && cell'.row.value.pool == cell.row.value.pool
          && Stage(cell.row.value.status) <= Stage(cell'.row.value.status))
  }
}
