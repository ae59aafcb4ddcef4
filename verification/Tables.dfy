/** The durable tables of the Scheduler Core, one map per table.

    Columns that no decision reads (payloads, update stamps, prompts, the
    `retention` copy on an agent) are left out.  A lease row is keyed by its
    attempt because `leases.attempt_id` is a UNIQUE column filled by the same
    statement pair that creates the attempt. */
module Tables {
  import opened Options
  import opened RowOrder

  /** Why a transaction was rolled back. */
  datatype Error =
    | NotFound
    | InvalidTransition
    | StaleAuthority
    | BadValue
    | Integrity          // a PRIMARY KEY, UNIQUE or CHECK constraint of the schema
    | MissingPartition
    | RetiredPartition
    | MergeCycle

  /** What a transaction produces: a committed value, or an error and a rollback. */
  datatype Outcome<+T> = Ok(value: T) | Err(error: Error) {
    predicate IsFailure() { Err? }
    function PropagateFailure<U>(): Outcome<U>
      requires Err?
    {
      Err(error)
    }
    function Extract(): T
      requires Ok?
    {
      value
    }
  }

  datatype TaskState = Blocked | Queued | Leased | Running | RetryWait | Suspended | Completed | Cancelled
  datatype AttemptState = Active | Succeeded | Failed | Expired | Cancelled
  datatype LeaseState = Active | Released | Expired | Revoked
  datatype ExecutionState = Starting | Running | Succeeded | Failed | Lost | Unknown | Terminated
  datatype BatchState = Active | Suspended | Completed | Cancelled
  datatype AgentState = Initializing | Ready | Assigned | Reviving | Draining | Suspended | Retired
  datatype IncarnationState = Starting | Warm | Cold | Lost | Terminated
  datatype EscalationState = Open | Resolved | Cancelled
  datatype FailureClass =
    | TransientExternal | Timeout | ExecutionLost | StartFailure | ResourceUnavailable
    | PermissionFailure | InvalidResult | AdapterProtocolFailure | UnknownFailure
    | WriterQuiescenceUnknown
  datatype WorkspaceMode = ReadOnly | Write
  datatype Retention = Resident | Ephemeral
  datatype Continuity = Required | Preferred | NoPreference

  datatype Partition = Partition(
    desired: nat,
    retention: Retention,
    target: Id,
    profile: Id,
    tags: set<Id>,
    active: bool,
    mergedInto: Option<Id>,
    revision: nat)

  datatype Agent = Agent(
    partition: Id,
    state: AgentState,
    workstream: Option<Id>,
    tags: set<Id>,
    current: Option<Id>,
    pending: Option<Id>,
    retire: bool,              // retirement_requested
    version: nat,              // continuity_version
    available: Option<real>,   // available_since
    created: real)

  datatype Task = Task(
    batch: Id,
    deps: set<Id>,             // its task_dependencies rows
    partition: Id,
    workstream: Option<Id>,
    continuity: Continuity,
    tags: set<Id>,
    mode: WorkspaceMode,
    priority: int,
    state: TaskState,
    maxAttempts: nat,
    retryClasses: set<FailureClass>,
    baseBackoff: real,
    maxBackoff: real,
    nextEligible: Option<real>,
    current: Option<Id>,       // current_attempt_id
    epoch: nat,                // fencing_epoch
    created: real)
  {
    predicate Terminal() { state.Completed? || state.Cancelled? }
    predicate Held() { state.Leased? || state.Running? }
  }

  datatype Attempt = Attempt(
    task: Id,
    agent: Id,
    incarnation: Option<Id>,
    number: nat,
    epoch: nat,                // lease_epoch
    state: AttemptState)

  datatype Lease = Lease(task: Id, epoch: nat, state: LeaseState, expires: real)

  datatype Execution = Execution(
    task: Id,
    attempt: Id,
    incarnation: Id,
    target: Id,
    isolated: bool,            // attempt_isolation
    state: ExecutionState,
    terminal: bool,            // terminal_confirmed
    quiescent: bool)           // quiescent_confirmed
  {
    /** STARTING, RUNNING or UNKNOWN: the physical work may still be alive. */
    predicate Live() { state.Starting? || state.Running? || state.Unknown? }

    /** A writer that may still be writing into the shared workspace. */
    predicate Unsafe() { !quiescent && !isolated }
  }

  datatype Incarnation = Incarnation(agent: Id, generation: nat, target: Id, state: IncarnationState)
  {
    predicate Live() { state.Starting? || state.Warm? || state.Cold? }
  }

  datatype Escalation = Escalation(
    task: Id,
    batch: Id,
    agent: Id,
    cause: FailureClass,
    state: EscalationState)
  {
    /** An unresolved writer-safety obligation on an agent. */
    predicate Hold() { state.Open? && cause.WriterQuiescenceUnknown? }
  }

  datatype Result = Result(task: Id, batch: Id, attempt: Id, agent: Id, acked: bool)

  datatype Event = BatchResultsReady(batch: Id) | DecisionRequired(escalation: Id)

  datatype Db = Db(
    partitions: map<Id, Partition>,
    agents: map<Id, Agent>,
    batches: map<Id, BatchState>,
    tasks: map<Id, Task>,
    attempts: map<Id, Attempt>,
    leases: map<Id, Lease>,            // by attempt
    executions: map<Id, Execution>,
    incarnations: map<Id, Incarnation>,
    escalations: map<Id, Escalation>,
    results: map<Id, Result>,
    outbox: map<Id, Event>,
    revision: nat)                     // last pool_topology_revisions row

  const EMPTY := Db(map[], map[], map[], map[], map[], map[], map[], map[], map[], map[], map[], 0)

  function Or<T>(o: Option<T>, fallback: T): T {
    if o.Some? then o.value else fallback
  }
}
