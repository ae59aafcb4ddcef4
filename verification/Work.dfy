/** Batches, claims, executions and the settlement of attempts. */
module Work {
  import opened Options
  import opened RowOrder
  import opened Tables
  import opened Topology
  import TaskGraph

  // ---------------------------------------------------------------- submission

  datatype TaskSpec = TaskSpec(
    name: Id,
    id: Id,                    // the caller's task_id, or the one just drawn
    dependencies: seq<Id>,     // names or ids of tasks in the same batch
    partition: Id,
    workstream: Option<Id>,
    continuity: Continuity,
    tags: set<Id>,
    mode: WorkspaceMode,
    priority: int,
    maxAttempts: nat,
    retryClasses: set<FailureClass>,
    baseBackoff: real,
    maxBackoff: real)

  predicate Distinct(s: seq<Id>) {
    forall i, j | 0 <= i < j < |s| :: s[i] != s[j]
  }

  /** Task names to task ids; a repeated name or a repeated id is refused. */
  function NameIds(specs: seq<TaskSpec>): Outcome<map<Id, Id>> {
    if specs == [] then Ok(map[])
    else
      var n := |specs| - 1;
      var ids :- NameIds(specs[..n]);
      if specs[n].name in ids || specs[n].id in ids.Values then Err(BadValue)
      else Ok(ids[specs[n].name := specs[n].id])
  }

  /** A dependency is a name of the batch, else an id of the batch. */
  function ResolveDeps(ids: map<Id, Id>, deps: seq<Id>): Outcome<seq<Id>> {
    if deps == [] then Ok([])
    else
      var n := |deps| - 1;
      var rest :- ResolveDeps(ids, deps[..n]);
      if deps[n] in ids then Ok(rest + [ids[deps[n]]])
      else if deps[n] in ids.Values then Ok(rest + [deps[n]])
      else Err(BadValue)
  }

  /** The graph handed to the cycle check: task id to the ids it waits for. */
  function BuildGraph(ids: map<Id, Id>, specs: seq<TaskSpec>): Outcome<TaskGraph.Graph> {
    if specs == [] then Ok(map[])
    else
      var n := |specs| - 1;
      var graph :- BuildGraph(ids, specs[..n]);
      var deps :- ResolveDeps(ids, specs[n].dependencies);
      Ok(graph[specs[n].id := deps])
  }

  function NewTask(spec: TaskSpec, batch: Id, deps: set<Id>, now: real): Task {
    Task(batch, deps, spec.partition, spec.workstream, spec.continuity, spec.tags, spec.mode, spec.priority,
         if deps == {} then TaskState.Queued else TaskState.Blocked,
         spec.maxAttempts, spec.retryClasses, spec.baseBackoff, spec.maxBackoff, None, None, 0, now)
  }

  /** One INSERT per task, with the schema's constraints. */
  function InsertTasks(parts: map<Id, Partition>, tasks: map<Id, Task>, graph: TaskGraph.Graph, batch: Id,
                       specs: seq<TaskSpec>, now: real): Outcome<map<Id, Task>> {
    if specs == [] then Ok(tasks)
    else
      var n := |specs| - 1;
      var spec := specs[n];
      var rest :- InsertTasks(parts, tasks, graph, batch, specs[..n], now);
      if !ActivePartition(parts, spec.partition) then Err(NotFound)
      else if spec.id in rest || spec.id !in graph then Err(Integrity)
      else if spec.maxAttempts < 1 || spec.baseBackoff < 0.0 || spec.maxBackoff < spec.baseBackoff then Err(Integrity)
      else Ok(rest[spec.id := NewTask(spec, batch, (set d | d in graph[spec.id]), now)])
  }

  /** Dependency rows are keyed by the pair, so a repeated dependency is refused. */
  predicate Repeats(graph: TaskGraph.Graph) {
    exists t :: t in graph && !Distinct(graph[t])
  }

  ghost function SubmitBatch(s: Db, batch: Id, specs: seq<TaskSpec>, now: real): Outcome<Db> {
    if specs == [] then Err(BadValue)
    else
      var ids :- NameIds(specs);
      var graph :- BuildGraph(ids, specs);
      if !TaskGraph.Orderable(graph) then Err(BadValue)
      else if batch in s.batches then Err(Integrity)
      else
        var tasks :- InsertTasks(s.partitions, s.tasks, graph, batch, specs, now);
        if Repeats(graph) then Err(Integrity)
        else Ok(s.(batches := s.batches[batch := BatchState.Active], tasks := tasks))
  }

  // ---------------------------------------------------------------- claims

  predicate Due(task: Task, now: real) {
    task.nextEligible.None? || task.nextEligible.value <= now
  }

  /** QUEUED, in an ACTIVE batch, on an active partition and past its backoff. */
  predicate Claimable(s: Db, t: Id, now: real) {
    && t in s.tasks && s.tasks[t].state.Queued? && Due(s.tasks[t], now)
    && s.tasks[t].batch in s.batches && s.batches[s.tasks[t].batch].Active?
    && ActivePartition(s.partitions, s.tasks[t].partition)
  }

  predicate SameWorkstream(task: Task, agent: Agent) {
    task.workstream.Some? && task.workstream == agent.workstream
  }

  /** An idle READY agent of the same partition that meets tags and continuity. */
  predicate Fits(task: Task, agent: Agent) {
    agent.partition == task.partition && agent.state.Ready? && agent.current.None? && Admits(task, agent)
  }

  /** The tests of the claim loop: tags, and continuity where it is REQUIRED. */
  predicate Admits(task: Task, agent: Agent) {
    task.tags <= agent.tags && (task.continuity.Required? ==> SameWorkstream(task, agent))
  }

  function TaskRank(task: Task, t: Id): Rank { Rank(-task.priority, 0, task.created, t) }

  /** When the agent became available; a missing or zero stamp counts as its birth. */
  function FreeSince(agent: Agent): real {
    if agent.available.Some? && agent.available.value != 0.0 then agent.available.value else agent.created
  }

  function AgentRank(task: Task, agent: Agent, g: Id): Rank {
    Rank(if !task.continuity.NoPreference? && SameWorkstream(task, agent) then 0 else 1, 0, FreeSince(agent), g)
  }

  function ClaimableRows(s: Db, now: real): (rows: map<Id, Rank>)
    ensures Own(rows)
  {
    map t | t in s.tasks && Claimable(s, t, now) :: TaskRank(s.tasks[t], t)
  }

  function FittingRows(s: Db, t: Id): (rows: map<Id, Rank>)
    requires t in s.tasks
    ensures Own(rows)
  {
    map g | g in s.agents && Fits(s.tasks[t], s.agents[g]) :: AgentRank(s.tasks[t], s.agents[g], g)
  }

  /** The first task in order that some agent fits, with its best agent. */
  function FirstPair(s: Db, list: seq<Id>): Option<(Id, Id)>
    requires forall t | t in list :: t in s.tasks
  {
    if list == [] then None
    else
      var rows := FittingRows(s, list[0]);
      if rows != map[] then Some((list[0], Least(rows, rows.Keys)))
      else FirstPair(s, list[1..])
  }

  function AttemptsOf(attempts: map<Id, Attempt>, t: Id): set<Id> {
    set a | a in attempts && attempts[a].task == t
  }

  /** Insert the attempt and its lease, advance the fencing epoch, assign the agent. */
  function ClaimSelected(s: Db, t: Id, g: Id, attempt: Id, leaseSeconds: real, now: real): Outcome<Db>
    requires t in s.tasks && g in s.agents
  {
    if attempt in s.attempts || attempt in s.leases then Err(Integrity)
    else
      var task, agent := s.tasks[t], s.agents[g];
      var epoch := task.epoch + 1;
      var number := |AttemptsOf(s.attempts, t)| + 1;
      Ok(s.(attempts := s.attempts[attempt := Attempt(t, g, None, number, epoch, AttemptState.Active)],
            leases := s.leases[attempt := Lease(t, epoch, LeaseState.Active, now + leaseSeconds)],
            tasks := s.tasks[t := task.(state := TaskState.Leased, current := Some(attempt), epoch := epoch)],
            agents := s.agents[g := agent.(state := AgentState.Assigned, current := Some(t), available := None,
                                           workstream := if task.workstream.Some? then task.workstream
                                             else agent.workstream)]))
  }

  /** `claim_next_available`; the second component says whom it paired. */
  function ClaimNextAvailable(s: Db, attempt: Id, leaseSeconds: real, now: real): Outcome<(Db, Option<(Id, Id)>)> {
    match FirstPair(s, Listing(ClaimableRows(s, now)))
    case None => Ok((s, None))
    case Some((t, g)) =>
      if t !in s.tasks || g !in s.agents then Err(NotFound)
      else
        var s1 :- ClaimSelected(s, t, g, attempt, leaseSeconds, now);
        Ok((s1, Some((t, g))))
  }

  function AgentScore(task: Task, agent: Agent): int {
    if SameWorkstream(task, agent) then 0 else if task.continuity.NoPreference? then 1 else 2
  }

  /** QUEUED, due and in an ACTIVE batch. */
  predicate Open(s: Db, t: Id, now: real) {
    && t in s.tasks && s.tasks[t].state.Queued? && Due(s.tasks[t], now)
    && s.tasks[t].batch in s.batches && s.batches[s.tasks[t].batch].Active?
  }

  function OfferRank(task: Task, agent: Agent, t: Id): Rank {
    Rank(AgentScore(task, agent), -task.priority, task.created, t)
  }

  /** Tasks a given agent may take: no test of the task's partition row beyond equality. */
  function OfferedRows(s: Db, g: Id, now: real): (rows: map<Id, Rank>)
    requires g in s.agents
    ensures Own(rows)
  {
    map t | t in s.tasks && Open(s, t, now) && Fits(s.tasks[t], s.agents[g]) :: OfferRank(s.tasks[t], s.agents[g], t)
  }

  function ClaimNext(s: Db, g: Id, attempt: Id, leaseSeconds: real, now: real): Outcome<(Db, Option<Id>)> {
    if g !in s.agents then Err(NotFound)
    else if !s.agents[g].state.Ready? || s.agents[g].current.Some? then Ok((s, None))
    else if !ActivePartition(s.partitions, s.agents[g].partition) then Err(NotFound)
    else
      var rows := OfferedRows(s, g, now);
      if rows == map[] then Ok((s, None))
      else
        var t := Least(rows, rows.Keys);
        var s1 :- ClaimSelected(s, t, g, attempt, leaseSeconds, now);
        Ok((s1, Some(t)))
  }

  /** A READY agent that could take the task; unlike a claim, two missing workstreams agree. */
  predicate Serves(task: Task, agent: Agent) {
    agent.partition == task.partition && agent.state.Ready? && task.tags <= agent.tags
    && (task.continuity.Required? ==> task.workstream == agent.workstream)
  }

  predicate Served(s: Db, t: Id)
    requires t in s.tasks
  {
    exists g :: g in s.agents && Serves(s.tasks[t], s.agents[g])
  }

  function QueuedRows(s: Db): (rows: map<Id, Rank>)
    ensures Own(rows)
  {
    map t | t in s.tasks && s.tasks[t].state.Queued? && s.tasks[t].batch in s.batches
      && s.batches[s.tasks[t].batch].Active?
      :: TaskRank(s.tasks[t], t)
  }

  predicate NeedsConsumer(s: Db, t: Id) {
    t in s.tasks && !Served(s, t) && ActivePartition(s.partitions, s.tasks[t].partition)
  }

  function ServeEach(s: Db, list: seq<Id>, born: nat, draw: nat -> Id, now: real): Outcome<Db>
    decreases |list|
  {
    if list == [] then Ok(s)
    else if !NeedsConsumer(s, list[0]) then ServeEach(s, list[1..], born, draw, now)
    else
      var task := s.tasks[list[0]];
      var tags := s.partitions[task.partition].tags + task.tags;
      var s1 :- BirthAgent(s, draw(born), task.partition, task.workstream, Some(tags), now);
      ServeEach(s1, list[1..], born + 1, draw, now)
  }

  /** Birth an agent for each queued task that no READY agent could take. */
  function EnsureTaskConsumers(s: Db, draw: nat -> Id, now: real): Outcome<Db> {
    ServeEach(s, Listing(QueuedRows(s)), 0, draw, now)
  }

  // ---------------------------------------------------------------- executions

  /** ACTIVE attempt, ACTIVE unexpired lease, matching epochs and the task's own pointer. */
  predicate Authority(s: Db, a: Id, epoch: nat, now: real) {
    && a in s.attempts && s.attempts[a].task in s.tasks && a in s.leases
    && s.attempts[a].state.Active? && s.leases[a].state.Active?
    && s.attempts[a].epoch == epoch && s.leases[a].epoch == epoch
    && s.tasks[s.attempts[a].task].current == Some(a)
    && s.tasks[s.attempts[a].task].epoch == epoch
    && s.leases[a].expires > now
  }

  function CheckAuthority(s: Db, a: Id, epoch: nat, now: real): Outcome<()> {
    if a !in s.attempts || s.attempts[a].task !in s.tasks then Err(NotFound)
    else if !Authority(s, a, epoch, now) then Err(StaleAuthority)
    else Ok(())
  }

  function ExecutionsOf(executions: map<Id, Execution>, a: Id): set<Id> {
    set x | x in executions && executions[x].attempt == a
  }

  function ExecutionOf(executions: map<Id, Execution>, a: Id): Option<Id> {
    var all := ExecutionsOf(executions, a);
    if all == {} then None else Some(Least(ByIdRows(all), all))
  }

  /** The execution of an attempt; a supplied id must belong to the attempt. */
  function ExecutionFor(s: Db, a: Id, supplied: Option<Id>): Outcome<Option<Id>> {
    if supplied.Some? then
      if supplied.value !in s.executions then Err(NotFound)
      else if s.executions[supplied.value].attempt != a then Err(StaleAuthority)
      else Ok(supplied)
    else Ok(ExecutionOf(s.executions, a))
  }

  function LiveIncarnations(incs: map<Id, Incarnation>, g: Id): set<Id> {
    set i | i in incs && incs[i].agent == g && incs[i].Live()
  }

  function GenerationRows(incs: map<Id, Incarnation>, keys: set<Id>): (rows: map<Id, Rank>)
    requires keys <= incs.Keys
    ensures Own(rows) && rows.Keys == keys
  {
    map i | i in keys :: Rank(-(incs[i].generation as int), 0, 0.0, i)
  }

  /** The newest live incarnation if it is on the target, else a new generation. */
  function EnsureIncarnation(incs: map<Id, Incarnation>, g: Id, target: Id,
                             drawn: Id): Outcome<(map<Id, Incarnation>, Id)> {
    var live := LiveIncarnations(incs, g);
    if live != {} then
      var current := Least(GenerationRows(incs, live), live);
      if incs[current].target != target then Err(InvalidTransition) else Ok((incs, current))
    else if drawn in incs then Err(Integrity)
    else
      var all := set i | i in incs && incs[i].agent == g;
      var generation := if all == {} then 1 else incs[Least(GenerationRows(incs, all), all)].generation + 1;
      Ok((incs[drawn := Incarnation(g, generation, target, IncarnationState.Starting)], drawn))
  }

  predicate Busy(executions: map<Id, Execution>, i: Id) {
    exists x :: x in executions && executions[x].incarnation == i && executions[x].Live()
  }

  /** The attempt's own incarnation, or one ensured for its agent. */
  function ChooseIncarnation(s: Db, a: Id, target: Id, drawn: Id): Outcome<(map<Id, Incarnation>, Id)>
    requires a in s.attempts
  {
    if s.attempts[a].incarnation.Some? then Ok((s.incarnations, s.attempts[a].incarnation.value))
    else EnsureIncarnation(s.incarnations, s.attempts[a].agent, target, drawn)
  }

  function StartedRows(s: Db, a: Id, incs: map<Id, Incarnation>, i: Id, target: Id, isolated: bool, x: Id): Db
    requires a in s.attempts
  {
    s.(incarnations := incs,
       attempts := s.attempts[a := s.attempts[a].(incarnation := Some(i))],
       executions := s.executions[x := Execution(s.attempts[a].task, a, i, target, isolated, ExecutionState.Starting,
                                                 false, false)])
  }

  /** The claim's task and agent are the ones on its attempt row. */
  function CreateExecution(s: Db, a: Id, epoch: nat, target: Id, isolated: bool, x: Id, drawn: Id,
                           now: real): Outcome<Db> {
    var _ :- CheckAuthority(s, a, epoch, now);
    var placed :- ChooseIncarnation(s, a, target, drawn);
    if Busy(s.executions, placed.1) then Err(InvalidTransition)
    else if x in s.executions || ExecutionsOf(s.executions, a) != {} then Err(Integrity)   // one_execution_per_attempt
    else Ok(StartedRows(s, a, placed.0, placed.1, target, isolated, x))
  }

  function SetIncarnation(incs: map<Id, Incarnation>, i: Option<Id>, state: IncarnationState): map<Id, Incarnation> {
    if i.Some? && i.value in incs then incs[i.value := incs[i.value].(state := state)] else incs
  }

  function ConfirmRunning(s: Db, a: Id, epoch: nat, x: Id, leaseSeconds: real, now: real): Outcome<Db> {
    var _ :- CheckAuthority(s, a, epoch, now);
    if x !in s.executions then Err(NotFound)
    else if s.executions[x].attempt != a then Err(StaleAuthority)
    else if !s.executions[x].Live() then Err(InvalidTransition)
    else
      var t := s.attempts[a].task;
      Ok(s.(executions := s.executions[x := s.executions[x].(state := ExecutionState.Running)],
            tasks := s.tasks[t := s.tasks[t].(state := TaskState.Running)],
            incarnations := SetIncarnation(s.incarnations, s.attempts[a].incarnation, IncarnationState.Warm),
            leases := s.leases[a := s.leases[a].(expires := now + leaseSeconds)]))
  }

  function RecordStartAmbiguity(s: Db, a: Id, epoch: nat, x: Id, now: real): Outcome<Db> {
    var _ :- CheckAuthority(s, a, epoch, now);
    if x !in s.executions then Err(NotFound)
    else if s.executions[x].attempt != a then Err(StaleAuthority)
    else if !s.executions[x].state.Starting? && !s.executions[x].state.Unknown? then Err(InvalidTransition)
    else Ok(s.(executions := s.executions[x := s.executions[x].(state := ExecutionState.Unknown)]))
  }

  /** What physical history may follow what. */
  predicate TransitionAllowed(from: ExecutionState, to: ExecutionState) {
    match from
    case Starting => true
    case Unknown => !to.Starting?
    case Running => !to.Starting? && !to.Unknown?
    case Lost => to.Lost? || to.Succeeded? || to.Failed? || to.Terminated?
    case Succeeded => to.Succeeded? || to.Terminated?
    case Failed => to.Failed? || to.Terminated?
    case Terminated => to.Terminated?
  }

  /** Physical presence after an observation; grants no authority. */
  function Presence(incs: map<Id, Incarnation>, i: Option<Id>, state: ExecutionState,
                    terminal: bool, quiescent: bool, reusable: bool): map<Id, Incarnation> {
    if i.None? || i.value !in incs || state.Starting? || state.Unknown? then incs
    else
      var live := incs[i.value].Live();
      if state.Running? || (reusable && terminal && quiescent) then
        if live then SetIncarnation(incs, i, IncarnationState.Warm) else incs
      else if !state.Lost? && terminal && quiescent then
        if live || incs[i.value].state.Lost? then SetIncarnation(incs, i, IncarnationState.Terminated) else incs
      else
        if live then SetIncarnation(incs, i, IncarnationState.Lost) else incs
  }

  /** Confirmations are only ever added. */
  function ObservedRow(e: Execution, state: ExecutionState, terminal: bool, quiescent: bool): Execution {
    e.(state := state, terminal := e.terminal || terminal, quiescent := e.quiescent || quiescent)
  }

  function RecordPhysicalOutcome(s: Db, x: Id, state: ExecutionState, terminal: bool, quiescent: bool): Outcome<Db> {
    if x !in s.executions then Err(NotFound)
    else
      var e := s.executions[x];
      if !TransitionAllowed(e.state, state) then Err(InvalidTransition)
      else Ok(s.(executions := s.executions[x := ObservedRow(e, state, terminal, quiescent)],
                 incarnations := Presence(s.incarnations, Some(e.incarnation), state, terminal, quiescent, false)))
  }

  predicate RunningExecution(executions: map<Id, Execution>, a: Id) {
    exists x :: x in executions && executions[x].attempt == a && executions[x].state.Running?
  }

  function Heartbeat(s: Db, a: Id, epoch: nat, leaseSeconds: real, now: real): Outcome<Db> {
    var _ :- CheckAuthority(s, a, epoch, now);
    if !RunningExecution(s.executions, a) then Err(StaleAuthority)
    else Ok(s.(leases := s.leases[a := s.leases[a].(expires := now + leaseSeconds)]))
  }

  predicate Renewable(s: Db, a: Id, now: real)
    requires a in s.leases
  {
    && s.leases[a].state.Active? && s.leases[a].expires > now
    && a in s.attempts && s.attempts[a].state.Active? && s.attempts[a].task in s.tasks
    && s.tasks[s.attempts[a].task].current == Some(a)
    && s.tasks[s.attempts[a].task].epoch == s.attempts[a].epoch
    && RunningExecution(s.executions, a)
  }

  function RenewActiveLeases(s: Db, supervised: set<Id>, leaseSeconds: real, now: real): Db {
    s.(leases := map a | a in s.leases ::
         if a in supervised && Renewable(s, a, now)
         then s.leases[a].(expires := now + leaseSeconds) else s.leases[a])
  }

  // ---------------------------------------------------------------- settlement

  /** Ids drawn for the rows a settlement may insert. */
  datatype Drawn = Drawn(result: Id, escalation: Id, decision: Id, notice: Id)

  function CloseAttempt(s: Db, a: Id, attempt: AttemptState, lease: LeaseState): Db {
    s.(attempts := if a in s.attempts then s.attempts[a := s.attempts[a].(state := attempt)] else s.attempts,
       leases := if a in s.leases then s.leases[a := s.leases[a].(state := lease)] else s.leases)
  }

  function SetTask(s: Db, t: Id, state: TaskState, nextEligible: Option<real>): Db {
    if t in s.tasks
    then s.(tasks := s.tasks[t := s.tasks[t].(state := state, current := None, nextEligible := nextEligible)])
    else s
  }

  predicate AllCompleted(tasks: map<Id, Task>, b: Id) {
    forall t | t in tasks && tasks[t].batch == b :: tasks[t].state.Completed?
  }

  predicate SomeStopped(tasks: map<Id, Task>, b: Id) {
    exists t :: t in tasks && tasks[t].batch == b && (tasks[t].state.Suspended? || tasks[t].state.Cancelled?)
  }

  /** The state a batch takes from its tasks. */
  function BatchNext(tasks: map<Id, Task>, b: Id): BatchState {
    if SomeStopped(tasks, b) then BatchState.Suspended
    else if AllCompleted(tasks, b) then BatchState.Completed
    else BatchState.Active
  }

  /** Write the new state; completion is announced once. */
  function EnterState(s: Db, b: Id, next: BatchState, notice: Id): Outcome<Db>
    requires b in s.batches
  {
    if next == s.batches[b] then Ok(s)
    else if next.Completed? then
      if notice in s.outbox then Err(Integrity)
      else Ok(s.(batches := s.batches[b := next], outbox := s.outbox[notice := BatchResultsReady(b)]))
    else Ok(s.(batches := s.batches[b := next]))
  }

  function RecomputeBatch(s: Db, b: Id, notice: Id): Outcome<Db> {
    if b !in s.batches then Err(NotFound)
    else if s.batches[b].Cancelled? then Ok(s)
    else EnterState(s, b, BatchNext(s.tasks, b), notice)
  }

  predicate HasOpen(escalations: map<Id, Escalation>, t: Id) {
    exists k :: k in escalations && escalations[k].task == t && escalations[k].state.Open?
  }

  function CreateEscalation(s: Db, t: Id, g: Id, cause: FailureClass, drawn: Drawn): Outcome<Db> {
    if t !in s.tasks then Err(NotFound)
    else if HasOpen(s.escalations, t) then Ok(s)
    else if drawn.escalation in s.escalations || drawn.decision in s.outbox then Err(Integrity)
    else Ok(s.(escalations :=
      s.escalations[drawn.escalation := Escalation(t, s.tasks[t].batch, g, cause, EscalationState.Open)],
               outbox := s.outbox[drawn.decision := DecisionRequired(drawn.escalation)]))
  }

  /** The tables after the attempt, its lease and its task are written. */
  function ClosedRows(s: Db, a: Id, attempt: AttemptState, lease: LeaseState, state: TaskState, next: Option<real>): Db
    requires a in s.attempts
  {
    SetTask(CloseAttempt(s, a, attempt, lease), s.attempts[a].task, state, next)
  }

  /** Close the attempt, wait for a retry, and hand the agent back. */
  function CloseRetry(s: Db, a: Id, attempt: AttemptState, lease: LeaseState, eligible: real, now: real): Outcome<Db>
    requires a in s.attempts
  {
    ReleaseAgent(ClosedRows(s, a, attempt, lease, TaskState.RetryWait, Some(eligible)), s.attempts[a].agent, now)
  }

  /** A suspended task; an agent whose writer may still be writing is suspended with it. */
  function SuspendedRows(s: Db, a: Id, attempt: AttemptState, lease: LeaseState, cause: FailureClass,
                         now: real): Outcome<Db>
    requires a in s.attempts && s.attempts[a].task in s.tasks
  {
    var s1 := ClosedRows(s, a, attempt, lease, TaskState.Suspended, s.tasks[s.attempts[a].task].nextEligible);
    if cause.WriterQuiescenceUnknown? then Ok(s1.(agents := SuspendAgent(s1.agents, s.attempts[a].agent)))
    else ReleaseAgent(s1, s.attempts[a].agent, now)
  }

  function Escalate(s: Db, t: Id, g: Id, b: Id, cause: FailureClass, drawn: Drawn): Outcome<Db> {
    var s1 :- CreateEscalation(s, t, g, cause, drawn);
    RecomputeBatch(s1, b, drawn.notice)
  }

  /** Close the attempt, suspend the task, and ask Root to decide. */
  function CloseSuspended(s: Db, a: Id, attempt: AttemptState, lease: LeaseState, cause: FailureClass,
                          drawn: Drawn, now: real): Outcome<Db>
    requires a in s.attempts && s.attempts[a].task in s.tasks
  {
    var t := s.attempts[a].task;
    var s2 :- SuspendedRows(s, a, attempt, lease, cause, now);
    Escalate(s2, t, s.attempts[a].agent, s.tasks[t].batch, cause, drawn)
  }

  function SuspendCurrent(s: Db, a: Id, cause: FailureClass, drawn: Drawn, now: real): Outcome<Db>
    requires a in s.attempts && s.attempts[a].task in s.tasks
  {
    CloseSuspended(s, a, AttemptState.Failed, LeaseState.Revoked, cause, drawn, now)
  }

  function ReleaseDependencies(tasks: map<Id, Task>, b: Id): map<Id, Task> {
    map t | t in tasks ::
      if tasks[t].batch == b && tasks[t].state.Blocked?
         && (forall d | d in tasks[t].deps && d in tasks :: tasks[d].state.Completed?)
      then tasks[t].(state := TaskState.Queued) else tasks[t]
  }

  /** A continuity capsule as the checkpoint code sees it. */
  datatype Capsule = NoCapsule | GoodCapsule | BadCapsule

  function PromotedAgents(agents: map<Id, Agent>, g: Id, capsule: Capsule): Outcome<map<Id, Agent>> {
    match capsule
    case NoCapsule => Ok(agents)
    case BadCapsule => Err(BadValue)
    case GoodCapsule =>
      if g !in agents then Err(NotFound) else Ok(agents[g := agents[g].(version := agents[g].version + 1)])
  }

  function PromoteVersion(s: Db, g: Id, capsule: Capsule): Outcome<Db> {
    var agents :- PromotedAgents(s.agents, g, capsule);
    Ok(s.(agents := agents))
  }

  function PromoteCheckpoint(s: Db, a: Id, epoch: nat, capsule: Capsule, now: real): Outcome<Db> {
    var _ :- CheckAuthority(s, a, epoch, now);
    PromoteVersion(s, s.attempts[a].agent, capsule)
  }

  function MarkExecution(s: Db, x: Option<Id>, state: ExecutionState, terminal: bool, quiescent: bool): Db {
    if x.Some? && x.value in s.executions
    then s.(executions :=
      s.executions[x.value := s.executions[x.value].(state := state, terminal := terminal, quiescent := quiescent)])
    else s
  }

  /** No execution, or one whose writer cannot still be writing. */
  predicate WriterSafe(s: Db, t: Id, x: Option<Id>, quiescent: bool)
    requires t in s.tasks
  {
    s.tasks[t].mode.ReadOnly? || x.None? || x.value !in s.executions || quiescent || s.executions[x.value].isolated
  }

  /** The physical rows of a finished execution. */
  function FinishedRows(s: Db, a: Id, x: Option<Id>, quiescent: bool, reusable: bool): (r: Db)
    requires a in s.attempts
    ensures r.attempts == s.attempts && r.tasks == s.tasks
  {
    var s1 := MarkExecution(s, x, ExecutionState.Succeeded, true, quiescent);
    s1.(incarnations := Presence(s1.incarnations, s.attempts[a].incarnation, ExecutionState.Succeeded, true,
                                 quiescent, reusable))
  }

  /** The attempt SUCCEEDED, its task COMPLETED, one result. */
  function CompletedRows(s: Db, a: Id, result: Id): Db
    requires a in s.attempts && s.attempts[a].task in s.tasks
  {
    var attempt := s.attempts[a];
    var s1 := ClosedRows(s, a, AttemptState.Succeeded, LeaseState.Released, TaskState.Completed, None);
    s1.(results := s1.results[result := Result(attempt.task, s.tasks[attempt.task].batch, a, attempt.agent, false)])
  }

  /** Hand the agent back, release dependents and recompute the batch. */
  function FinishTask(s: Db, g: Id, b: Id, notice: Id, now: real): Outcome<Db> {
    var s1 :- ReleaseAgent(s, g, now);
    RecomputeBatch(s1.(tasks := ReleaseDependencies(s1.tasks, b)), b, notice)
  }

  function AckCompleted(s: Db, a: Id, x: Option<Id>, capsule: Capsule, quiescent: bool, reusable: bool,
                        drawn: Drawn, now: real): Outcome<Db>
    requires a in s.attempts && s.attempts[a].task in s.tasks
  {
    var g, b := s.attempts[a].agent, s.tasks[s.attempts[a].task].batch;
    var agents :- PromotedAgents(s.agents, g, capsule);
    if x.Some? && (x.value !in s.executions || !s.executions[x.value].Live()) then Err(InvalidTransition)
    else if drawn.result in s.results then Err(Integrity)
    else FinishTask(CompletedRows(FinishedRows(s.(agents := agents), a, x, quiescent, reusable), a, drawn.result), g,
                    b, drawn.notice, now)
  }

  function AckSuccess(s: Db, a: Id, epoch: nat, supplied: Option<Id>, capsule: Capsule, quiescent: bool, reusable: bool,
                      drawn: Drawn, now: real): Outcome<Db> {
    var _ :- CheckAuthority(s, a, epoch, now);
    var x :- ExecutionFor(s, a, supplied);
    if WriterSafe(s, s.attempts[a].task, x, quiescent)
    then AckCompleted(s, a, x, capsule, quiescent, reusable, drawn, now)
    else SuspendCurrent(FinishedRows(s, a, x, false, false), a, WriterQuiescenceUnknown, drawn, now)
  }

  function Pow2(n: nat): real {
    if n == 0 then 1.0 else 2.0 * Pow2(n - 1)
  }

  function Backoff(task: Task, number: nat): real {
    var d := task.baseBackoff * Pow2(if number >= 1 then number - 1 else 0);
    if d <= task.maxBackoff then d else task.maxBackoff
  }

  predicate RetryAllowed(task: Task, cause: FailureClass, number: nat) {
    cause in task.retryClasses && number < task.maxAttempts
  }

  /** Retry after a backoff, or stop and ask. */
  datatype Verdict = RetryAt(eligible: real) | Stop(cause: FailureClass)

  function Judge(task: Task, cause: FailureClass, number: nat, safe: bool, now: real): Verdict {
    if RetryAllowed(task, cause, number) && safe then RetryAt(now + Backoff(task, number))
    else Stop(if safe then cause else WriterQuiescenceUnknown)
  }

  function Settle(s: Db, a: Id, attempt: AttemptState, onRetry: LeaseState, onStop: LeaseState, verdict: Verdict,
                  drawn: Drawn, now: real): Outcome<Db>
    requires a in s.attempts && s.attempts[a].task in s.tasks
  {
    match verdict
    case RetryAt(eligible) => CloseRetry(s, a, attempt, onRetry, eligible, now)
    case Stop(cause) => CloseSuspended(s, a, attempt, onStop, cause, drawn, now)
  }

  datatype Report = Report(cause: FailureClass, terminal: bool, quiescent: bool, reusable: bool)

  /** The physical rows of a failed execution. */
  function FailedRows(s: Db, a: Id, x: Option<Id>, report: Report): Db
    requires a in s.attempts
  {
    var s1 := MarkExecution(s, x, if report.terminal then ExecutionState.Failed
      else ExecutionState.Unknown, report.terminal, report.quiescent);
    s1.(incarnations := Presence(s1.incarnations, s.attempts[a].incarnation,
                                 if report.cause.ExecutionLost? then ExecutionState.Lost else ExecutionState.Failed,
                                 report.terminal, report.quiescent, report.reusable))
  }

  /** `now` is the clock authority is checked against; `at` stamps the retry. */
  function Nack(s: Db, a: Id, epoch: nat, supplied: Option<Id>, report: Report, drawn: Drawn, at: real,
                now: real): Outcome<Db> {
    var _ :- CheckAuthority(s, a, epoch, now);
    var x :- ExecutionFor(s, a, supplied);
    if x.Some? && (x.value !in s.executions || !s.executions[x.value].Live()) then Err(InvalidTransition)
    else
      var t := s.attempts[a].task;
      Settle(FailedRows(s, a, x, report), a, AttemptState.Failed, LeaseState.Released, LeaseState.Revoked,
             Judge(s.tasks[t], report.cause, s.attempts[a].number, WriterSafe(s, t, x, report.quiescent), at), drawn,
               at)
  }

  function PromoteRetryWait(s: Db, now: real): Db {
    s.(tasks := map t | t in s.tasks ::
         if s.tasks[t].state.RetryWait? && s.tasks[t].nextEligible.Some? && s.tasks[t].nextEligible.value <= now
         then s.tasks[t].(state := TaskState.Queued, nextEligible := None) else s.tasks[t])
  }

  // ---------------------------------------------------------------- expiry

  predicate Lapsed(s: Db, a: Id, unstarted: bool, now: real) {
    a in s.leases && s.leases[a].state.Active?
    && (s.leases[a].expires <= now || (unstarted && ExecutionsOf(s.executions, a) == {}))
  }

  function LapsedRows(s: Db, unstarted: bool, now: real): (rows: map<Id, Rank>)
    ensures Own(rows)
  {
    map a | a in s.leases && Lapsed(s, a, unstarted, now) :: Rank(0, 0, s.leases[a].expires, a)
  }

  function LostIncarnation(incs: map<Id, Incarnation>, i: Option<Id>): map<Id, Incarnation> {
    if i.Some? && i.value in incs && incs[i.value].Live() then SetIncarnation(incs, i, IncarnationState.Lost) else incs
  }

  function ExpiredRows(s: Db, a: Id): (r: Db)
    requires a in s.attempts
    ensures r.attempts == s.attempts && r.tasks == s.tasks
  {
    s.(incarnations := LostIncarnation(s.incarnations, s.attempts[a].incarnation))
  }

  /** Whether the expired attempt leaves no writer behind. */
  predicate ExpiresSafely(s: Db, a: Id)
    requires a in s.attempts && s.attempts[a].task in s.tasks
  {
    var x := ExecutionOf(s.executions, a);
    WriterSafe(s, s.attempts[a].task, x, x.Some? && x.value in s.executions && s.executions[x.value].quiescent)
  }

  function ExpireOne(s: Db, a: Id, drawn: Drawn, now: real): Outcome<Db>
    requires a in s.attempts && s.attempts[a].task in s.tasks
  {
    Settle(ExpiredRows(s, a), a, AttemptState.Expired, LeaseState.Expired, LeaseState.Expired,
           Judge(s.tasks[s.attempts[a].task], ExecutionLost, s.attempts[a].number, ExpiresSafely(s, a), now), drawn,
             now)
  }

  function ExpireEach(s: Db, list: seq<Id>, k: nat, draw: nat -> Drawn, now: real): Outcome<Db>
    decreases |list|
  {
    if list == [] then Ok(s)
    else if list[0] !in s.attempts
      || s.attempts[list[0]].task !in s.tasks then ExpireEach(s, list[1..], k + 1, draw, now)
    else
      var s1 :- ExpireOne(s, list[0], draw(k), now);
      ExpireEach(s1, list[1..], k + 1, draw, now)
  }

  function ExpireLeases(s: Db, unstarted: bool, draw: nat -> Drawn, now: real): Outcome<Db> {
    ExpireEach(s, Listing(LapsedRows(s, unstarted, now)), 0, draw, now)
  }

  // ---------------------------------------------------------------- cancellation

  /** Quiescence vouched for by the caller or already on the execution row. */
  predicate KnownQuiet(s: Db, x: Option<Id>, confirmed: bool) {
    confirmed || (x.Some? && x.value in s.executions && s.executions[x.value].quiescent)
  }

  function CancelledRows(s: Db, a: Id, x: Option<Id>, confirmed: bool): Db
    requires a in s.attempts
  {
    var quiet := x.None? || KnownQuiet(s, x, confirmed);
    CloseAttempt(s.(incarnations := Presence(s.incarnations, s.attempts[a].incarnation,
                                             if quiet then ExecutionState.Terminated
                                               else ExecutionState.Lost, quiet, quiet, false)),
                 a, AttemptState.Cancelled, LeaseState.Revoked)
  }

  /** Hand the agent back, or suspend it under a writer-safety escalation. */
  function DisposeAgent(s: Db, a: Id, safe: bool, drawn: Drawn, now: real): Outcome<Db>
    requires a in s.attempts
  {
    var g := s.attempts[a].agent;
    if safe then ReleaseAgent(s, g, now)
    else CreateEscalation(s.(agents := SuspendAgent(s.agents, g)), s.attempts[a].task, g, WriterQuiescenceUnknown,
                          drawn)
  }

  /** Close the attempt of a cancelled task and dispose of its agent. */
  function CancelAttempt(s: Db, a: Id, confirmed: bool, drawn: Drawn, now: real): Outcome<Db>
    requires a in s.attempts && s.attempts[a].task in s.tasks
  {
    var x := ExecutionOf(s.executions, a);
    DisposeAgent(CancelledRows(s, a, x, confirmed), a,
                 WriterSafe(s, s.attempts[a].task, x, KnownQuiet(s, x, confirmed)), drawn, now)
  }

  function CancelTask(s: Db, t: Id, confirmed: bool, drawn: Drawn, now: real): Outcome<Db> {
    if t !in s.tasks then Err(NotFound)
    else if s.tasks[t].Terminal() then Ok(s)
    else
      var current := s.tasks[t].current;
      var s1 :- if current.None? then Ok(s)
                else if current.value !in s.attempts || s.attempts[current.value].task !in s.tasks then Err(NotFound)
                else CancelAttempt(s, current.value, confirmed, drawn, now);
      RecomputeBatch(SetTask(s1, t, TaskState.Cancelled, s.tasks[t].nextEligible), s.tasks[t].batch, drawn.notice)
  }

  predicate ActiveIn(s: Db, a: Id, b: Id) {
    a in s.attempts && s.attempts[a].state.Active? && s.attempts[a].task in s.tasks
      && s.tasks[s.attempts[a].task].batch == b
  }

  function CancelEach(s: Db, list: seq<Id>, k: nat, draw: nat -> Drawn, now: real): Outcome<Db>
    decreases |list|
  {
    if list == [] then Ok(s)
    else if list[0] !in s.attempts || s.attempts[list[0]].task !in s.tasks then Err(NotFound)
    else
      var s1 :- CancelAttempt(s, list[0], false, draw(k), now);
      CancelEach(s1, list[1..], k + 1, draw, now)
  }

  function CancelOthers(escalations: map<Id, Escalation>, b: Id): map<Id, Escalation> {
    map k | k in escalations ::
      if escalations[k].batch == b && escalations[k].state.Open? && !escalations[k].cause.WriterQuiescenceUnknown?
      then escalations[k].(state := EscalationState.Cancelled) else escalations[k]
  }

  function CancelTasks(tasks: map<Id, Task>, b: Id): map<Id, Task> {
    map t | t in tasks ::
      if tasks[t].batch == b
        && !tasks[t].Terminal() then tasks[t].(state := TaskState.Cancelled, current := None) else tasks[t]
  }

  function CancelBatch(s: Db, b: Id, draw: nat -> Drawn, now: real): Outcome<Db> {
    if b !in s.batches then Err(NotFound)
    else if s.batches[b].Cancelled? then Ok(s)
    else
      var active := set a | a in s.attempts && ActiveIn(s, a, b);
      var s1 :- CancelEach(s.(escalations := CancelOthers(s.escalations, b)), ById(active), 0, draw, now);
      Ok(s1.(tasks := CancelTasks(s1.tasks, b), batches := s1.batches[b := BatchState.Cancelled]))
  }

  // ---------------------------------------------------------------- escalations

  datatype Resolution = Retry | CancelIt | ReleaseCancelledWriter

  function NumberRows(attempts: map<Id, Attempt>, keys: set<Id>): (rows: map<Id, Rank>)
    requires keys <= attempts.Keys
    ensures Own(rows) && rows.Keys == keys
  {
    map a | a in keys :: Rank(-(attempts[a].number as int), 0, 0.0, a)
  }

  /** The attempt with the greatest number. */
  function Latest(attempts: map<Id, Attempt>, t: Id): Option<Id> {
    var all := AttemptsOf(attempts, t);
    if all == {} then None else Some(Least(NumberRows(attempts, all), all))
  }

  function LatestExecution(s: Db, t: Id): Option<Id> {
    var a := Latest(s.attempts, t);
    if a.None? then None
    else
      var all := ExecutionsOf(s.executions, a.value);
      if all == {} then None else Some(Least(ByIdRows(all), all))
  }

  predicate FrozenIsolation(s: Db, t: Id) {
    var x := LatestExecution(s, t);
    x.Some? && x.value in s.executions && s.executions[x.value].isolated
  }

  function FinalExecution(e: Execution, confirmed: bool): Execution {
    if confirmed then e.(state := if e.Live() then ExecutionState.Terminated
      else e.state, terminal := true, quiescent := true)
    else if e.isolated then e.(state := if e.Live() then ExecutionState.Lost else e.state)
    else e
  }

  function FinalIncarnations(incs: map<Id, Incarnation>, i: Option<Id>, confirmed: bool): map<Id, Incarnation> {
    if i.Some? && i.value in incs && !incs[i.value].state.Terminated?
    then SetIncarnation(incs, i, if confirmed then IncarnationState.Terminated else IncarnationState.Lost)
    else incs
  }

  /** Record the quiescence Root vouches for, or abandon an isolated attempt. */
  function FinalizeWriter(s: Db, t: Id, confirmed: bool): Db {
    var a, x := Latest(s.attempts, t), LatestExecution(s, t);
    if a.None? || a.value !in s.attempts then s
    else
      s.(executions := if x.Some? && x.value in s.executions
                       then s.executions[x.value := FinalExecution(s.executions[x.value], confirmed)] else s.executions,
         incarnations := FinalIncarnations(s.incarnations, s.attempts[a.value].incarnation, confirmed))
  }

  /** A READY agent must be revived before it is used again. */
  function RevivingRows(s: Db, g: Id): Db {
    if g in s.agents && s.agents[g].state.Ready?
    then s.(agents := s.agents[g := s.agents[g].(state := AgentState.Reviving, available := None)])
    else s
  }

  function PrepareRevival(s: Db, g: Id, now: real): Outcome<Db> {
    if g !in s.agents then Err(NotFound)
    else if s.agents[g].state.Retired? then Ok(s)
    else
      var s1 :- ReleaseAgent(s, g, now);
      Ok(RevivingRows(s1, g))
  }

  function CloseEscalation(s: Db, k: Id): Db {
    if k in s.escalations
    then s.(escalations := s.escalations[k := s.escalations[k].(state := EscalationState.Resolved)])
    else s
  }

  /** The writer is finished with and its agent may be revived. */
  function ReleaseWriter(s: Db, e: Escalation, confirmed: bool, now: real): Outcome<Db> {
    PrepareRevival(FinalizeWriter(s, e.task, confirmed), e.agent, now)
  }

  function ReleaseCancelled(s: Db, k: Id, confirmed: bool, notice: Id, now: real): Outcome<Db>
    requires k in s.escalations && s.escalations[k].task in s.tasks
  {
    var e := s.escalations[k];
    if !s.tasks[e.task].state.Cancelled? || !e.cause.WriterQuiescenceUnknown?
      || !(confirmed || FrozenIsolation(s, e.task))
    then Err(InvalidTransition)
    else
      var s1 :- ReleaseWriter(s, e, confirmed, now);
      RecomputeBatch(CloseEscalation(s1, k), s.tasks[e.task].batch, notice)
  }

  /** Back to QUEUED, and a suspended batch back to ACTIVE. */
  function Requeue(s: Db, t: Id): Db
    requires t in s.tasks
  {
    var b := s.tasks[t].batch;
    s.(tasks := s.tasks[t := s.tasks[t].(state := TaskState.Queued, nextEligible := None)],
       batches := if b in s.batches && s.batches[b].Suspended? then s.batches[b := BatchState.Active] else s.batches)
  }

  function RetryTask(s: Db, k: Id, confirmed: bool, notice: Id, now: real): Outcome<Db>
    requires k in s.escalations && s.escalations[k].task in s.tasks
  {
    var e := s.escalations[k];
    var writer := e.cause.WriterQuiescenceUnknown?;
    if !s.tasks[e.task].state.Suspended? then Err(InvalidTransition)
    else if s.tasks[e.task].mode.Write? && writer
      && !(confirmed || FrozenIsolation(s, e.task)) then Err(InvalidTransition)
    else
      var s1 := Requeue(s, e.task);
      var s2 :- if writer then ReleaseWriter(s1, e, confirmed, now) else Ok(s1);
      RecomputeBatch(CloseEscalation(s2, k), s.tasks[e.task].batch, notice)
  }

  /** Cancelling leaves a writer-safety obligation open. */
  function CancelEscalated(s: Db, k: Id, notice: Id): Outcome<Db>
    requires k in s.escalations && s.escalations[k].task in s.tasks
  {
    var e := s.escalations[k];
    var s1 := s.(tasks := s.tasks[e.task := s.tasks[e.task].(state := TaskState.Cancelled)]);
    RecomputeBatch(if e.cause.WriterQuiescenceUnknown? then s1
      else CloseEscalation(s1, k), s.tasks[e.task].batch, notice)
  }

  function ResolveEscalation(s: Db, k: Id, how: Resolution, confirmed: bool, notice: Id, now: real): Outcome<Db> {
    if k !in s.escalations then Err(NotFound)
    else if !s.escalations[k].state.Open? then Err(InvalidTransition)
    else if s.escalations[k].task !in s.tasks then Err(NotFound)
    else
      match how
      case ReleaseCancelledWriter => ReleaseCancelled(s, k, confirmed, notice, now)
      case Retry => RetryTask(s, k, confirmed, notice, now)
      case CancelIt => CancelEscalated(s, k, notice)
  }

  function AckResult(s: Db, r: Id): Outcome<Db> {
    if r !in s.results then Err(NotFound)
    else Ok(s.(results := s.results[r := s.results[r].(acked := true)]))
  }
}
