/** Every topology operation keeps the whole invariant. */
module ReshapeProofs {
  import opened Options
  import opened RowOrder
  import opened Tables
  import opened Work
  import opened Invariants
  import opened TopologyProofs

  /** In progress: no dependency, batch or escalation can tell these states apart. */
  predicate InProgress(state: TaskState) {
    state.Queued? || state.Leased? || state.Running? || state.RetryWait?
  }

  predicate TaskAlike(t: Task, t': Task) {
    && t'.batch == t.batch && t'.deps == t.deps && t'.mode == t.mode && t'.current == t.current && t'.epoch == t.epoch
    && t'.maxAttempts == t.maxAttempts && (t.Terminal() ==> t' == t) && (t'.Held() <==> t.Held())
    && (t'.state == t.state || (InProgress(t.state) && InProgress(t'.state)))
  }

  ghost predicate Alike(tasks: map<Id, Task>, tasks': map<Id, Task>) {
    tasks'.Keys == tasks.Keys && forall t | t in tasks :: TaskAlike(tasks[t], tasks'[t])
  }

  ghost predicate LeasesAlike(leases: map<Id, Lease>, leases': map<Id, Lease>) {
    leases'.Keys == leases.Keys && forall a | a in leases :: leases'[a] == leases[a].(expires := leases'[a].expires)
  }

  /** Physical history moves on: nothing dead comes back to life, nothing quiet becomes unsafe. */
  predicate ExecutionAlike(e: Execution, e': Execution) {
    && e'.task == e.task && e'.attempt == e.attempt && e'.incarnation == e.incarnation && e'.isolated == e.isolated
    && (e'.Live() ==> e.Live()) && (e.quiescent ==> e'.quiescent)
  }

  ghost predicate ExecutionsAlike(executions: map<Id, Execution>, executions': map<Id, Execution>) {
    executions'.Keys == executions.Keys && forall x | x in executions :: ExecutionAlike(executions[x], executions'[x])
  }

  /** Rows moved, but no attempt was opened or closed and no task settled. */
  ghost predicate Undisturbed(s: Db, s': Db) {
    && s' == s.(agents := s'.agents, incarnations := s'.incarnations, partitions := s'.partitions,
                revision := s'.revision,
                tasks := s'.tasks, leases := s'.leases, executions := s'.executions)
    && AgentsKept(s.agents, s'.agents) && IncsKept(s.incarnations, s'.incarnations) && Alike(s.tasks, s'.tasks)
    && LeasesAlike(s.leases, s'.leases) && ExecutionsAlike(s.executions, s'.executions)
  }

  /** Only agents, incarnations, partitions and the placement of tasks changed. */
  ghost predicate Reshaped(s: Db, s': Db) {
    && s' == s.(agents := s'.agents, incarnations := s'.incarnations, partitions := s'.partitions,
                revision := s'.revision, tasks := s'.tasks)
    && AgentsKept(s.agents, s'.agents) && IncsKept(s.incarnations, s'.incarnations) && Alike(s.tasks, s'.tasks)
  }

  ghost predicate TopologyOk(s: Db) {
    AgentsPlaced(s.agents, s.partitions) && TasksPlaced(s.tasks, s.partitions) && MergeOrdered(s.partitions, s.revision)
  }

  lemma AlikeFenced(tasks: map<Id, Task>, tasks': map<Id, Task>, attempts: map<Id, Attempt>,
                    leases: map<Id, Lease>, leases': map<Id, Lease>)
    requires Alike(tasks, tasks') && LeasesAlike(leases, leases') && Fenced(tasks, attempts, leases)
      && EpochsCount(tasks, attempts)
    ensures Fenced(tasks', attempts, leases') && EpochsCount(tasks', attempts)
  {
    forall a | a in attempts ensures AttemptFenced(tasks', attempts[a], leases'[a], a) {
      assert AttemptFenced(tasks, attempts[a], leases[a], a);
      assert TaskAlike(tasks[attempts[a].task], tasks'[attempts[a].task]);
    }
    forall t | t in tasks' ensures TaskFenced(tasks'[t], attempts, t) {
      assert TaskFenced(tasks[t], attempts, t) && TaskAlike(tasks[t], tasks'[t]);
    }
  }

  lemma AlikeAssigned(tasks: map<Id, Task>, tasks': map<Id, Task>, attempts: map<Id, Attempt>,
                      agents: map<Id, Agent>, agents': map<Id, Agent>)
    requires Alike(tasks, tasks') && AgentsKept(agents, agents') && AgentsEngaged(tasks, attempts, agents)
    ensures AgentsEngaged(tasks', attempts, agents')
  {
    forall g | g in agents' ensures AgentAssigned(tasks', attempts, agents'[g], g) {
      if g in agents {
        assert AgentAssigned(tasks, attempts, agents[g], g) && RowKept(agents[g], agents'[g]);
        if agents[g].current.Some? {
          assert TaskAlike(tasks[agents[g].current.value], tasks'[agents[g].current.value]);
        }
      }
    }
    forall a | a in attempts ensures attempts[a].agent in agents'
      && (attempts[a].state.Active? ==> agents'[attempts[a].agent].current == Some(attempts[a].task)) {
      assert RowKept(agents[attempts[a].agent], agents'[attempts[a].agent]);
    }
  }

  lemma AlikeEscalated(tasks: map<Id, Task>, tasks': map<Id, Task>, agents: map<Id, Agent>, agents': map<Id, Agent>,
                       escalations: map<Id, Escalation>)
    requires Alike(tasks, tasks') && AgentsKept(agents, agents') && Escalated(tasks, agents, escalations)
    ensures Escalated(tasks', agents', escalations)
  {
    forall k | k in escalations ensures EscalationSound(tasks', agents', escalations[k]) {
      assert EscalationSound(tasks, agents, escalations[k]);
      assert TaskAlike(tasks[escalations[k].task], tasks'[escalations[k].task]);
      assert RowKept(agents[escalations[k].agent], agents'[escalations[k].agent]);
    }
    forall t | t in tasks' && tasks'[t].state.Suspended? ensures HasOpen(escalations, t) {
      assert TaskAlike(tasks[t], tasks'[t]);
    }
    forall g | g in agents' && agents'[g].state.Suspended? ensures HoldOn(escalations, g) {
      assert RowKept(agents[g], agents'[g]);
    }
  }

  lemma AlikeWriters(tasks: map<Id, Task>, tasks': map<Id, Task>, attempts: map<Id, Attempt>,
                     executions: map<Id, Execution>, executions': map<Id, Execution>, escalations: map<Id, Escalation>)
    requires Alike(tasks, tasks') && ExecutionsAlike(executions, executions')
      && WritersHeld(tasks, attempts, executions, escalations)
    ensures WritersHeld(tasks', attempts, executions', escalations)
  {
    forall x | x in executions' ensures WriterHeld(tasks', attempts, executions'[x], escalations) {
      assert WriterHeld(tasks, attempts, executions[x], escalations) && ExecutionAlike(executions[x], executions'[x]);
      if executions[x].task in tasks {
        assert TaskAlike(tasks[executions[x].task], tasks'[executions[x].task]);
      }
    }
  }

  lemma AlikeTaskDeps(tasks: map<Id, Task>, tasks': map<Id, Task>, t: Id)
    requires Alike(tasks, tasks') && t in tasks && TaskDeps(tasks, tasks[t])
    ensures TaskDeps(tasks', tasks'[t])
  {
    assert TaskAlike(tasks[t], tasks'[t]);
    forall d | d in tasks[t].deps && d in tasks
      ensures tasks'[d].batch == tasks[d].batch && (tasks'[d].state.Completed? <==> tasks[d].state.Completed?) {
      assert TaskAlike(tasks[d], tasks'[d]);
    }
    if tasks[t].state.Blocked? {
      var d :| d in tasks[t].deps && d in tasks && !tasks[d].state.Completed?;
      assert d in tasks'[t].deps && d in tasks' && !tasks'[d].state.Completed?;
    }
  }

  lemma AlikeNumbered(tasks: map<Id, Task>, tasks': map<Id, Task>, rank: map<Id, nat>)
    requires Alike(tasks, tasks') && Numbered(tasks, rank)
    ensures Numbered(tasks', rank)
  {
    forall t, d | WaitsFor(tasks', t, d) ensures Lower(rank, d, t) {
      assert TaskAlike(tasks[t], tasks'[t]);
      assert WaitsFor(tasks, t, d);
    }
  }

  lemma AlikeDeps(tasks: map<Id, Task>, tasks': map<Id, Task>)
    requires Alike(tasks, tasks') && DepsSettled(tasks) && DepsOrdered(tasks)
    ensures DepsSettled(tasks') && DepsOrdered(tasks')
  {
    forall t | t in tasks' ensures TaskDeps(tasks', tasks'[t]) {
      AlikeTaskDeps(tasks, tasks', t);
    }
    var rank :| Numbered(tasks, rank);
    AlikeNumbered(tasks, tasks', rank);
  }

  /** All that batches, results and notices see of a task. */
  predicate ProgressAlike(t: Task, t': Task) {
    t'.batch == t.batch && (t'.state == t.state || (InProgress(t.state) && InProgress(t'.state)))
  }

  ghost predicate SameProgress(tasks: map<Id, Task>, tasks': map<Id, Task>) {
    tasks'.Keys == tasks.Keys && forall t | t in tasks :: ProgressAlike(tasks[t], tasks'[t])
  }

  lemma AlikeProgress(tasks: map<Id, Task>, tasks': map<Id, Task>)
    requires Alike(tasks, tasks')
    ensures SameProgress(tasks, tasks')
  {
    forall t | t in tasks ensures ProgressAlike(tasks[t], tasks'[t]) {
      assert TaskAlike(tasks[t], tasks'[t]);
    }
  }

  lemma ProgressNext(tasks: map<Id, Task>, tasks': map<Id, Task>, b: Id)
    requires SameProgress(tasks, tasks')
    ensures BatchNext(tasks', b) == BatchNext(tasks, b)
    ensures AllCompleted(tasks', b) == AllCompleted(tasks, b)
  {
    if SomeStopped(tasks, b) {
      var t :| t in tasks && tasks[t].batch == b && (tasks[t].state.Suspended? || tasks[t].state.Cancelled?);
      assert ProgressAlike(tasks[t], tasks'[t]);
    }
    if SomeStopped(tasks', b) {
      var t :| t in tasks' && tasks'[t].batch == b && (tasks'[t].state.Suspended? || tasks'[t].state.Cancelled?);
      assert ProgressAlike(tasks[t], tasks'[t]);
    }
    forall t | t in tasks
      ensures (tasks[t].state.Completed? <==> tasks'[t].state.Completed?) && tasks[t].batch == tasks'[t].batch {
      assert ProgressAlike(tasks[t], tasks'[t]);
    }
  }

  lemma ProgressBatches(tasks: map<Id, Task>, tasks': map<Id, Task>, batches: map<Id, BatchState>)
    requires SameProgress(tasks, tasks') && BatchesAgree(tasks, batches)
    ensures BatchesAgree(tasks', batches)
  {
    forall t | t in tasks' ensures tasks'[t].batch in batches {
      assert ProgressAlike(tasks[t], tasks'[t]);
    }
    forall b | b in batches ensures BatchAgrees(tasks', b, batches[b]) {
      ProgressBatch(tasks, tasks', b, batches[b]);
    }
  }

  lemma ProgressBatch(tasks: map<Id, Task>, tasks': map<Id, Task>, b: Id, state: BatchState)
    requires SameProgress(tasks, tasks') && BatchAgrees(tasks, b, state)
    ensures BatchAgrees(tasks', b, state)
  {
    ProgressNext(tasks, tasks', b);
    var t :| t in tasks && tasks[t].batch == b;
    assert ProgressAlike(tasks[t], tasks'[t]);
    forall u | u in tasks' && tasks'[u].batch == b ensures tasks'[u].Terminal() <==> tasks[u].Terminal() {
      assert ProgressAlike(tasks[u], tasks'[u]);
    }
  }

  lemma ProgressResults(tasks: map<Id, Task>, tasks': map<Id, Task>, batches: map<Id, BatchState>,
                     results: map<Id, Result>, outbox: map<Id, Event>)
    requires SameProgress(tasks, tasks') && ResultsMatch(tasks, results) && NoticesMatch(tasks, batches, outbox)
    ensures ResultsMatch(tasks', results) && NoticesMatch(tasks', batches, outbox)
  {
    forall r | r in results ensures results[r].task in tasks' && tasks'[results[r].task].state.Completed? {
      assert ProgressAlike(tasks[results[r].task], tasks'[results[r].task]);
    }
    forall t | t in tasks' && tasks'[t].state.Completed? ensures exists r :: r in results && results[r].task == t {
      assert ProgressAlike(tasks[t], tasks'[t]);
    }
    forall b | b in batches ensures AllCompleted(tasks', b) <==> Notified(outbox, b) {
      ProgressNext(tasks, tasks', b);
    }
  }

  lemma KeptPhysical(executions: map<Id, Execution>, executions': map<Id, Execution>, attempts: map<Id, Attempt>,
                     incs: map<Id, Incarnation>, incs': map<Id, Incarnation>)
    requires Physical(executions, attempts, incs) && IncsKept(incs, incs') && ExecutionsAlike(executions, executions')
    ensures Physical(executions', attempts, incs')
  {
    forall x | x in executions'
      ensures ExecutionPhysical(executions'[x], attempts) && ExecutionAlike(executions[x], executions'[x]) {
      assert ExecutionPhysical(executions[x], attempts);
    }
  }

  ghost predicate SamePlaces(tasks: map<Id, Task>, tasks': map<Id, Task>) {
    tasks'.Keys == tasks.Keys && forall t | t in tasks :: tasks'[t].partition == tasks[t].partition
  }

  lemma KeptHomes(tasks: map<Id, Task>, tasks': map<Id, Task>, agents: map<Id, Agent>, agents': map<Id, Agent>)
    requires SamePlaces(tasks, tasks') && AgentsKept(agents, agents') && Homes(tasks, agents)
    ensures Homes(tasks', agents')
  {
    forall g | g in agents' && agents'[g].current.Some? && agents'[g].pending.None?
      && agents'[g].current.value in tasks'
      ensures tasks'[agents'[g].current.value].partition == agents'[g].partition {
      assert RowKept(agents[g], agents'[g]);
    }
  }

  lemma UndisturbedInv(s: Db, s': Db)
    requires Inv(s) && Undisturbed(s, s') && TopologyOk(s') && Homes(s'.tasks, s'.agents)
    ensures Inv(s')
  {
    AlikeFenced(s.tasks, s'.tasks, s.attempts, s.leases, s'.leases);
    AlikeAssigned(s.tasks, s'.tasks, s.attempts, s.agents, s'.agents);
    AlikeEscalated(s.tasks, s'.tasks, s.agents, s'.agents, s.escalations);
    AlikeWriters(s.tasks, s'.tasks, s.attempts, s.executions, s'.executions, s.escalations);
    AlikeDeps(s.tasks, s'.tasks);
    AlikeProgress(s.tasks, s'.tasks);
    ProgressBatches(s.tasks, s'.tasks, s.batches);
    ProgressResults(s.tasks, s'.tasks, s.batches, s.results, s.outbox);
    KeptPhysical(s.executions, s'.executions, s.attempts, s.incarnations, s'.incarnations);
  }

  lemma ReshapedUndisturbed(s: Db, s': Db)
    requires Reshaped(s, s')
    ensures Undisturbed(s, s')
  {
  }

  /** Steps that leave every task where it is scheduled. */
  lemma StillInv(s: Db, s': Db)
    requires Inv(s) && Undisturbed(s, s') && TopologyOk(s') && SamePlaces(s.tasks, s'.tasks)
    ensures Inv(s')
  {
    KeptHomes(s.tasks, s'.tasks, s.agents, s'.agents);
    UndisturbedInv(s, s');
  }

  lemma ReshapedInv(s: Db, s': Db)
    requires Inv(s) && Reshaped(s, s') && TopologyOk(s') && Homes(s'.tasks, s'.agents)
    ensures Inv(s')
  {
    ReshapedUndisturbed(s, s');
    UndisturbedInv(s, s');
  }

  lemma MovedReshapes(s: Db, s': Db)
    requires Moved(s, s')
    ensures Reshaped(s, s')
  {
  }

  lemma MovedInv(s: Db, s': Db)
    requires Inv(s) && Moved(s, s') && AgentsOk(s'.agents, s'.partitions)
    ensures Inv(s') && Reshaped(s, s')
  {
    MovedReshapes(s, s');
    KeptHomes(s.tasks, s'.tasks, s.agents, s'.agents);
    ReshapedInv(s, s');
  }

  lemma InvAgentsOk(s: Db)
    requires Inv(s)
    ensures AgentsOk(s.agents, s.partitions)
  {
    forall g | g in s.agents ensures Engaged(s.agents[g]) <==> s.agents[g].current.Some? {
      assert AgentAssigned(s.tasks, s.attempts, s.agents[g], g);
    }
  }
}
