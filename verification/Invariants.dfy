/** What every reachable state of the tables satisfies.  Each predicate names
    only the tables it speaks about, so a step that leaves those alone keeps it. */
module Invariants {
  import opened Options
  import opened RowOrder
  import opened Tables
  import opened Topology
  import opened Work

  // ---------------------------------------------------------------- fencing

  /** Attempts and leases agree, and the ACTIVE attempt is the one its task points to. */
  ghost predicate Fenced(tasks: map<Id, Task>, attempts: map<Id, Attempt>, leases: map<Id, Lease>) {
    && leases.Keys == attempts.Keys
    && (forall a | a in attempts :: AttemptFenced(tasks, attempts[a], leases[a], a))
    && (forall t | t in tasks :: TaskFenced(tasks[t], attempts, t))
    && (forall a, b | a in attempts && b in attempts && attempts[a].task == attempts[b].task
                      && attempts[a].number == attempts[b].number :: a == b)
  }

  ghost predicate AttemptFenced(tasks: map<Id, Task>, attempt: Attempt, lease: Lease, a: Id) {
    && attempt.task in tasks
    && lease.task == attempt.task
    && lease.epoch == attempt.epoch == attempt.number
    && 1 <= attempt.number <= tasks[attempt.task].epoch
    && (lease.state.Active? <==> attempt.state.Active?)
    && (attempt.state.Active? ==> tasks[attempt.task].current == Some(a) && attempt.number == tasks[attempt.task].epoch)
  }

  ghost predicate TaskFenced(task: Task, attempts: map<Id, Attempt>, t: Id) {
    && (task.Held() <==> task.current.Some?)
    && (task.current.Some? ==>
          && task.current.value in attempts
          && attempts[task.current.value].task == t
          && attempts[task.current.value].state.Active?)
  }

  /** A task's fencing epoch is its number of attempts. */
  ghost predicate EpochsCount(tasks: map<Id, Task>, attempts: map<Id, Attempt>) {
    forall t | t in tasks :: |AttemptsOf(attempts, t)| == tasks[t].epoch
  }

  // ---------------------------------------------------------------- assignment

  predicate Engaged(agent: Agent) {
    agent.state.Assigned? || agent.state.Draining?
  }

  /** An agent is engaged exactly while one ACTIVE attempt is its own. */
  ghost predicate AgentsEngaged(tasks: map<Id, Task>, attempts: map<Id, Attempt>, agents: map<Id, Agent>) {
    && (forall a | a in attempts :: attempts[a].agent in agents
          && (attempts[a].state.Active? ==> agents[attempts[a].agent].current == Some(attempts[a].task)))
    && (forall g | g in agents :: AgentAssigned(tasks, attempts, agents[g], g))
  }

  ghost predicate AgentAssigned(tasks: map<Id, Task>, attempts: map<Id, Attempt>, agent: Agent, g: Id) {
    && (Engaged(agent) <==> agent.current.Some?)
    && (agent.current.Some? ==>
          && agent.current.value in tasks
          && tasks[agent.current.value].current.Some?
          && tasks[agent.current.value].current.value in attempts
          && attempts[tasks[agent.current.value].current.value].agent == g)
  }

  // ---------------------------------------------------------------- physical rows

  ghost predicate Physical(executions: map<Id, Execution>, attempts: map<Id, Attempt>, incs: map<Id, Incarnation>) {
    && (forall a | a in attempts && attempts[a].incarnation.Some? ::
          attempts[a].incarnation.value in incs && incs[attempts[a].incarnation.value].agent == attempts[a].agent)
    && (forall x | x in executions :: ExecutionPhysical(executions[x], attempts))
    && (forall x, y | x in executions && y in executions && executions[x].attempt == executions[y].attempt :: x == y)
    && (forall x, y | x in executions && y in executions && executions[x].incarnation == executions[y].incarnation
                      && executions[x].Live() && executions[y].Live() :: x == y)
  }

  ghost predicate ExecutionPhysical(e: Execution, attempts: map<Id, Attempt>) {
    && e.attempt in attempts
    && e.task == attempts[e.attempt].task
    && attempts[e.attempt].incarnation == Some(e.incarnation)
  }

  // ---------------------------------------------------------------- writers and holds

  ghost predicate HasHold(escalations: map<Id, Escalation>, t: Id) {
    exists k :: k in escalations && escalations[k].task == t && escalations[k].Hold()
  }

  /** A closed attempt whose writer may still write belongs to a cancelled task, or is
      the last attempt of a SUSPENDED task with an open writer-safety escalation. */
  ghost predicate WritersHeld(tasks: map<Id, Task>, attempts: map<Id, Attempt>, executions: map<Id, Execution>,
                              escalations: map<Id, Escalation>) {
    forall x | x in executions :: WriterHeld(tasks, attempts, executions[x], escalations)
  }

  ghost predicate WriterHeld(tasks: map<Id, Task>, attempts: map<Id, Attempt>, e: Execution,
                             escalations: map<Id, Escalation>) {
    e.attempt in attempts && e.task in tasks && tasks[e.task].mode.Write? && !attempts[e.attempt].state.Active?
      && e.Unsafe() ==>
      || tasks[e.task].state.Cancelled?
      || (tasks[e.task].state.Suspended? && attempts[e.attempt].number == tasks[e.task].epoch
          && HasHold(escalations, e.task))
  }

  /** Escalations: one OPEN per task, one writer hold per agent, and the states they imply. */
  ghost predicate Escalated(tasks: map<Id, Task>, agents: map<Id, Agent>, escalations: map<Id, Escalation>) {
    && (forall k | k in escalations :: EscalationSound(tasks, agents, escalations[k]))
    && (forall k, j | k in escalations && j in escalations && escalations[k].state.Open? && escalations[j].state.Open?
                      && escalations[k].task == escalations[j].task :: k == j)
    && (forall k, j | k in escalations && j in escalations && escalations[k].Hold() && escalations[j].Hold()
                      && escalations[k].agent == escalations[j].agent :: k == j)
    && (forall t | t in tasks && tasks[t].state.Suspended? :: HasOpen(escalations, t))
    && (forall g | g in agents && agents[g].state.Suspended? :: HoldOn(escalations, g))
  }

  ghost predicate EscalationSound(tasks: map<Id, Task>, agents: map<Id, Agent>, e: Escalation) {
    && e.task in tasks && e.agent in agents && e.batch == tasks[e.task].batch
    && (e.state.Open? ==> tasks[e.task].state.Suspended? || tasks[e.task].state.Cancelled?)
    && (e.Hold() ==> agents[e.agent].state.Suspended?)
  }

  ghost predicate HoldOn(escalations: map<Id, Escalation>, g: Id) {
    exists k :: k in escalations && escalations[k].agent == g && escalations[k].Hold()
  }

  // ---------------------------------------------------------------- topology

  ghost predicate TasksPlaced(tasks: map<Id, Task>, parts: map<Id, Partition>) {
    forall t | t in tasks :: tasks[t].partition in parts && (!tasks[t].Terminal() ==> parts[tasks[t].partition].active)
  }

  ghost predicate AgentsPlaced(agents: map<Id, Agent>, parts: map<Id, Partition>) {
    forall g | g in agents :: AgentPlaced(agents[g], parts)
  }

  /** Where an agent is headed is active until it retires. */
  ghost predicate AgentPlaced(agent: Agent, parts: map<Id, Partition>) {
    && agent.partition in parts
    && (agent.state.Retired? ==> agent.pending.None? && !agent.retire)
    && (!agent.state.Retired? ==> ActivePartition(parts, Desired(agent)))
    && (agent.retire ==> agent.state.Draining? || agent.state.Suspended?)
    && (agent.pending.Some? ==> Engaged(agent) || agent.state.Suspended?)
    && (agent.state.Draining? ==> agent.pending.Some? || agent.retire)
  }

  /** An engaged agent that is not told to move works where its task is scheduled. */
  ghost predicate Homes(tasks: map<Id, Task>, agents: map<Id, Agent>) {
    forall g | g in agents && agents[g].current.Some? && agents[g].pending.None? && agents[g].current.value in tasks ::
      tasks[agents[g].current.value].partition == agents[g].partition
  }

  /** A merged partition points to one revised no earlier, and strictly later unless that one is active. */
  ghost predicate MergeOrdered(parts: map<Id, Partition>, revision: nat) {
    forall p | p in parts ::
      && parts[p].revision <= revision
      && (parts[p].active ==> parts[p].mergedInto.None?)
      && (parts[p].mergedInto.Some? ==>
            var q := parts[p].mergedInto.value;
            q in parts && parts[p].revision <= parts[q].revision
            && (!parts[q].active ==> parts[p].revision < parts[q].revision))
  }

  // ---------------------------------------------------------------- dependencies and batches

  ghost predicate DepsSettled(tasks: map<Id, Task>) {
    forall t | t in tasks :: TaskDeps(tasks, tasks[t])
  }

  ghost predicate TaskDeps(tasks: map<Id, Task>, task: Task) {
    && (forall d | d in task.deps :: d in tasks && tasks[d].batch == task.batch)
    && (task.state.Blocked? ==> exists d :: d in task.deps && d in tasks && !tasks[d].state.Completed?)
    && (!task.state.Blocked? && !task.state.Cancelled? ==>
      forall d | d in task.deps :: d in tasks && tasks[d].state.Completed?)
  }

  predicate WaitsFor(tasks: map<Id, Task>, t: Id, d: Id) {
    t in tasks && d in tasks[t].deps
  }

  predicate Lower(rank: map<Id, nat>, d: Id, t: Id) {
    d in rank && t in rank && rank[d] < rank[t]
  }

  ghost predicate Numbered(tasks: map<Id, Task>, rank: map<Id, nat>) {
    forall t, d | WaitsFor(tasks, t, d) :: Lower(rank, d, t)
  }

  ghost predicate DepsOrdered(tasks: map<Id, Task>) {
    exists rank: map<Id, nat> :: Numbered(tasks, rank)
  }

  /** A batch that is not cancelled has the state its tasks dictate. */
  ghost predicate BatchesAgree(tasks: map<Id, Task>, batches: map<Id, BatchState>) {
    && (forall t | t in tasks :: tasks[t].batch in batches)
    && (forall b | b in batches :: BatchAgrees(tasks, b, batches[b]))
  }

  ghost predicate BatchAgrees(tasks: map<Id, Task>, b: Id, state: BatchState) {
    && (exists t :: t in tasks && tasks[t].batch == b)
    && (if state.Cancelled? then forall t | t in tasks && tasks[t].batch == b :: tasks[t].Terminal()
        else state == BatchNext(tasks, b))
  }

  /** One result for each COMPLETED task and none otherwise. */
  ghost predicate ResultsMatch(tasks: map<Id, Task>, results: map<Id, Result>) {
    && (forall r | r in results :: results[r].task in tasks && tasks[results[r].task].state.Completed?)
    && (forall q, r | q in results && r in results && results[q].task == results[r].task :: q == r)
    && (forall t | t in tasks && tasks[t].state.Completed? :: exists r :: r in results && results[r].task == t)
  }

  predicate Notified(outbox: map<Id, Event>, b: Id) {
    exists e :: e in outbox && outbox[e] == BatchResultsReady(b)
  }

  /** One BATCH_RESULTS_READY for each batch whose tasks are all COMPLETED and none otherwise. */
  ghost predicate NoticesMatch(tasks: map<Id, Task>, batches: map<Id, BatchState>, outbox: map<Id, Event>) {
    && (forall b | b in batches :: AllCompleted(tasks, b) <==> Notified(outbox, b))
    && (forall e | e in outbox && outbox[e].BatchResultsReady? :: outbox[e].batch in batches)
    && (forall e, f | e in outbox && f in outbox && outbox[e].BatchResultsReady? && outbox[e] == outbox[f] :: e == f)
  }

  // ---------------------------------------------------------------- all together

  ghost predicate Inv(s: Db) {
    && Fenced(s.tasks, s.attempts, s.leases)
    && EpochsCount(s.tasks, s.attempts)
    && AgentsEngaged(s.tasks, s.attempts, s.agents)
    && Physical(s.executions, s.attempts, s.incarnations)
    && WritersHeld(s.tasks, s.attempts, s.executions, s.escalations)
    && Escalated(s.tasks, s.agents, s.escalations)
    && TasksPlaced(s.tasks, s.partitions)
    && AgentsPlaced(s.agents, s.partitions)
    && Homes(s.tasks, s.agents)
    && MergeOrdered(s.partitions, s.revision)
    && DepsSettled(s.tasks)
    && DepsOrdered(s.tasks)
    && BatchesAgree(s.tasks, s.batches)
    && ResultsMatch(s.tasks, s.results)
    && NoticesMatch(s.tasks, s.batches, s.outbox)
  }

  predicate Is(s: Db, t: Db) {
    s == t
  }

  /** The invariant, for callers that only hand it on: it is looked into where a proof asks
      for `Is`. */
  ghost predicate Lawful(s: Db) {
    forall t | Is(t, s) :: Inv(t)
  }

  lemma LawfulIff(s: Db)
    ensures Lawful(s) <==> Inv(s)
  {
    assert Is(s, s);
  }
}
