/** Every way to settle an attempt keeps the whole invariant. */
module Settlement {
  import opened Options
  import opened RowOrder
  import opened Tables
  import opened Topology
  import opened Work
  import opened Invariants
  import opened TopologyProofs
  import opened ReshapeProofs
  import opened Closing

  // ---------------------------------------------------------------- one closing step

  ghost predicate Closes(s: Db, s': Db, a: Id) {
    && s'.partitions == s.partitions && s'.revision == s.revision
    && AttemptClosed(s.attempts, s'.attempts, a) && LeaseClosed(s.leases, s'.leases, a)
    && TaskClosed(s.tasks, s'.tasks, s.attempts[a].task) && AgentFreed(s.agents, s'.agents, s.attempts[a].agent)
    && ExecutionsSettled(s.executions, s'.executions, a) && IncsKept(s.incarnations, s'.incarnations)
    && AgentPlaced(s'.agents[s.attempts[a].agent], s.partitions)
  }

  /** What the invariant says of an ACTIVE attempt. */
  lemma ActiveAttempt(s: Db, a: Id)
    requires Inv(s) && a in s.attempts && s.attempts[a].state.Active?
    ensures s.attempts[a].task in s.tasks && s.attempts[a].agent in s.agents && a in s.leases
      && s.leases[a].state.Active?
    ensures s.tasks[s.attempts[a].task].Held() && s.attempts[a].number == s.tasks[s.attempts[a].task].epoch
    ensures s.tasks[s.attempts[a].task].current == Some(a)
    ensures Engaged(s.agents[s.attempts[a].agent]) && s.tasks[s.attempts[a].task].batch in s.batches
  {
    var t := s.attempts[a].task;
    assert AttemptFenced(s.tasks, s.attempts[a], s.leases[a], a);
    assert TaskFenced(s.tasks[t], s.attempts, t);
    assert AgentAssigned(s.tasks, s.attempts, s.agents[s.attempts[a].agent], s.attempts[a].agent);
  }

  lemma ClosesAuthority(s: Db, s': Db, a: Id)
    requires Closes(s, s', a)
    requires Fenced(s.tasks, s.attempts, s.leases) && EpochsCount(s.tasks, s.attempts)
    requires AgentsEngaged(s.tasks, s.attempts, s.agents) && Physical(s.executions, s.attempts, s.incarnations)
    ensures Fenced(s'.tasks, s'.attempts, s'.leases) && EpochsCount(s'.tasks, s'.attempts)
    ensures AgentsEngaged(s'.tasks, s'.attempts, s'.agents) && Physical(s'.executions, s'.attempts, s'.incarnations)
  {
    ClosedFenced(s.tasks, s'.tasks, s.attempts, s'.attempts, s.leases, s'.leases, a);
    ClosedEpochs(s.tasks, s'.tasks, s.attempts, s'.attempts, a);
    ClosedEngaged(s.tasks, s'.tasks, s.attempts, s'.attempts, s.leases, s.agents, s'.agents, a);
    ClosedPhysical(s.executions, s'.executions, s.attempts, s'.attempts, s.incarnations, s'.incarnations, a);
  }

  lemma ClosesPlaced(s: Db, s': Db, a: Id)
    requires Closes(s, s', a) && TopologyOk(s) && s.tasks[s.attempts[a].task].Held()
    ensures TopologyOk(s')
  {
    forall u | u in s'.tasks ensures s'.tasks[u].partition in s'.partitions
      && (!s'.tasks[u].Terminal() ==> s'.partitions[s'.tasks[u].partition].active) {
      assert u != s.attempts[a].task ==> RowBeside(s.tasks[u], s'.tasks[u]);
    }
  }

  lemma ClosesOrdered(s: Db, s': Db, a: Id)
    requires Closes(s, s', a) && DepsOrdered(s.tasks)
    ensures DepsOrdered(s'.tasks)
  {
    forall t | t in s.tasks ensures s'.tasks[t].deps == s.tasks[t].deps {
      assert t != s.attempts[a].task ==> RowBeside(s.tasks[t], s'.tasks[t]);
    }
    SameDepsOrdered(s.tasks, s'.tasks);
  }

  /** The predicates that depend on how the attempt ended. */
  ghost predicate WellEnded(s: Db, s': Db, a: Id)
    requires Closes(s, s', a)
  {
    && HoldsKept(s.escalations, s'.escalations)
    && WriterSettled(s'.tasks, s'.executions, s'.escalations, a, s.attempts[a].task)
    && Escalated(s'.tasks, s'.agents, s'.escalations)
    && DepsSettled(s'.tasks)
    && BatchesAgree(s'.tasks, s'.batches)
    && ResultsMatch(s'.tasks, s'.results)
    && NoticesMatch(s'.tasks, s'.batches, s'.outbox)
  }

  ghost predicate Grown<T>(rows: map<Id, T>, rows': map<Id, T>) {
    forall k | k in rows :: k in rows' && rows'[k] == rows[k]
  }

  /** A closing step as its history sees it: nothing recorded is lost, and a retry is within budget. */
  ghost predicate Settled(s: Db, s': Db, a: Id) {
    && Closes(s, s', a) && s.tasks[s.attempts[a].task].Held()
    && HoldsKept(s.escalations, s'.escalations) && Grown(s.results, s'.results) && Grown(s.outbox, s'.outbox)
    && (s'.tasks[s.attempts[a].task].state.RetryWait? ==>
      s.tasks[s.attempts[a].task].epoch < s.tasks[s.attempts[a].task].maxAttempts)
  }

  lemma ClosesInv(s: Db, s': Db, a: Id)
    requires Inv(s) && Closes(s, s', a) && WellEnded(s, s', a)
    ensures Inv(s')
  {
    ActiveAttempt(s, a);
    ClosesAuthority(s, s', a);
    ClosesPlaced(s, s', a);
    ClosedHomes(s.tasks, s'.tasks, s.agents, s'.agents, s.attempts[a].task, s.attempts[a].agent);
    ClosesOrdered(s, s', a);
    ClosedWriters(s.tasks, s'.tasks, s.attempts, s'.attempts, s.executions, s'.executions, s.escalations,
                  s'.escalations, a);
  }

  // ---------------------------------------------------------------- agents

  /** A cutover changes one row and fences off incarnations on other targets. */
  lemma CommitValue(s: Db, g: Id, name: Id, now: real)
    requires g in s.agents && CommitCutover(s, g, name, now).Ok?
    ensures var s1 := CommitCutover(s, g, name, now).value;
      && s1 == s.(agents :=
        s.agents[g := s.agents[g].(partition := s1.agents[g].partition, pending := None, retire := false)],
                  incarnations := s1.incarnations)
      && IncsKept(s.incarnations, s1.incarnations) && ActivePartition(s.partitions, s1.agents[g].partition)
  {
    ResolveActive(s.partitions, name, {});
  }

  ghost predicate FreedRow(row: Agent, parts: map<Id, Partition>) {
    Disengaged(row) && (row.state.Ready? || row.state.Retired?) && AgentPlaced(row, parts)
  }

  /** Only the agent's row and incarnation states change, and the agent is free. */
  ghost predicate Frees(s: Db, s': Db, g: Id) {
    && g in s.agents && g in s'.agents
    && s' == s.(agents := s.agents[g := s'.agents[g]], incarnations := s'.incarnations)
    && IncsKept(s.incarnations, s'.incarnations) && FreedRow(s'.agents[g], s.partitions)
  }

  /** Rewriting the same row twice. */
  lemma FreesAfter(s: Db, s1: Db, g: Id, row: Agent, incs: map<Id, Incarnation>)
    requires g in s.agents && g in s1.agents
      && s1 == s.(agents := s.agents[g := s1.agents[g]], incarnations := s1.incarnations)
    requires IncsKept(s.incarnations, s1.incarnations) && IncsKept(s1.incarnations, incs) && FreedRow(row, s.partitions)
    ensures Frees(s, s1.(agents := s1.agents[g := row], incarnations := incs), g)
  {
    assert s1.agents[g := row] == s.agents[g := row];
  }

  /** At an assignment boundary the agent ends idle, in an active partition or retired. */
  lemma ReleaseFrees(s: Db, g: Id, now: real)
    requires g in s.agents && s.agents[g].partition in s.partitions && ReleaseAgent(s, g, now).Ok?
    ensures Frees(s, ReleaseAgent(s, g, now).value, g)
  {
    if s.agents[g].retire {
      FenceKept(s.incarnations, g, None);
      assert s == s.(agents := s.agents[g := s.agents[g]]);
      FreesAfter(s, s, g, RetiredRow(s.agents[g]), FenceOff(s.incarnations, g, None));
    } else {
      CommitValue(s, g, Desired(s.agents[g]), now);
      var s1 := CommitCutover(s, g, Desired(s.agents[g]), now).value;
      if s1.partitions[s1.agents[g].partition].retention.Ephemeral? {
        FenceKept(s1.incarnations, g, None);
        FreesAfter(s, s1, g, RetiredRow(s1.agents[g]), FenceOff(s1.incarnations, g, None));
      } else {
        FreesAfter(s, s1, g,
                   s1.agents[g].(state := AgentState.Ready, current := None, pending := None, available := Some(now)),
                   s1.incarnations);
      }
    }
  }

  lemma SuspendFrees(agents: map<Id, Agent>, parts: map<Id, Partition>, g: Id)
    requires g in agents && AgentPlaced(agents[g], parts) && Engaged(agents[g])
    ensures var agents' := SuspendAgent(agents, g);
      AgentFreed(agents, agents', g) && agents'[g].state.Suspended? && AgentPlaced(agents'[g], parts)
  {
  }

  // ---------------------------------------------------------------- the closing rows

  /** Before the attempt is closed only physical rows were rewritten. */
  ghost predicate Marked(s0: Db, s: Db, a: Id) {
    && s == s0.(executions := s.executions, incarnations := s.incarnations)
    && ExecutionsSettled(s0.executions, s.executions, a) && IncsKept(s0.incarnations, s.incarnations)
  }

  ghost predicate Closable(s: Db, a: Id) {
    && a in s.attempts && s.attempts[a].state.Active? && a in s.leases && s.leases[a].state.Active?
    && s.attempts[a].task in s.tasks && s.attempts[a].agent in s.agents
    && AgentPlaced(s.agents[s.attempts[a].agent], s.partitions) && Engaged(s.agents[s.attempts[a].agent])
    && s.tasks[s.attempts[a].task].Held()
  }

  lemma InvClosable(s: Db, a: Id)
    requires Inv(s) && a in s.attempts && s.attempts[a].state.Active?
    ensures Closable(s, a)
  {
    ActiveAttempt(s, a);
  }

  predicate EndState(state: TaskState) {
    state.RetryWait? || state.Suspended? || state.Completed? || state.Cancelled?
  }

  lemma RowsClose(s0: Db, s: Db, a: Id, attempt: AttemptState, lease: LeaseState, state: TaskState, next: Option<real>)
    requires Marked(s0, s, a) && Closable(s0, a) && !attempt.Active? && !lease.Active? && EndState(state)
    ensures var s1 := ClosedRows(s, a, attempt, lease, state, next);
      && AttemptClosed(s0.attempts, s1.attempts, a) && LeaseClosed(s0.leases, s1.leases, a)
      && TaskClosed(s0.tasks, s1.tasks, s0.attempts[a].task)
      && s1.tasks == s0.tasks[s0.attempts[a].task := s1.tasks[s0.attempts[a].task]]
      && s1.tasks[s0.attempts[a].task].state == state
      && s1 == s0.(attempts := s1.attempts, leases := s1.leases, tasks := s1.tasks, executions := s.executions,
                   incarnations := s.incarnations)
  {
  }

  lemma FreedCloses(s0: Db, s: Db, a: Id, attempt: AttemptState, lease: LeaseState, state: TaskState,
                    next: Option<real>, s2: Db)
    requires Marked(s0, s, a) && Closable(s0, a) && !attempt.Active? && !lease.Active? && EndState(state)
    requires Frees(ClosedRows(s, a, attempt, lease, state, next), s2, s0.attempts[a].agent)
    ensures Closes(s0, s2, a)
  {
    RowsClose(s0, s, a, attempt, lease, state, next);
  }

  lemma SuspendedCloses(s0: Db, s: Db, a: Id, attempt: AttemptState, lease: LeaseState, state: TaskState,
                        next: Option<real>)
    requires Marked(s0, s, a) && Closable(s0, a) && !attempt.Active? && !lease.Active? && EndState(state)
    ensures var s1 := ClosedRows(s, a, attempt, lease, state, next);
      var s2 := s1.(agents := SuspendAgent(s1.agents, s0.attempts[a].agent));
      Closes(s0, s2, a) && s2.agents[s0.attempts[a].agent].state.Suspended?
  {
    RowsClose(s0, s, a, attempt, lease, state, next);
    SuspendFrees(s0.agents, s0.partitions, s0.attempts[a].agent);
  }

  // ---------------------------------------------------------------- retry

  /** No execution of the attempt can still be writing. */
  ghost predicate Safe(s: Db, a: Id)
    requires a in s.attempts && s.attempts[a].task in s.tasks
  {
    forall x | x in s.executions && s.executions[x].attempt == a ::
      s.tasks[s.attempts[a].task].mode.ReadOnly? || !s.executions[x].Unsafe()
  }

  lemma ClosedResults(tasks: map<Id, Task>, tasks': map<Id, Task>, results: map<Id, Result>, t: Id)
    requires TaskClosed(tasks, tasks', t) && tasks[t].Held() && !tasks'[t].state.Completed?
      && ResultsMatch(tasks, results)
    ensures ResultsMatch(tasks', results)
  {
    forall u | u in tasks ensures tasks'[u].state.Completed? <==> tasks[u].state.Completed? {
      assert u != t ==> RowBeside(tasks[u], tasks'[u]);
    }
    forall u | u in tasks' && tasks'[u].state.Completed? ensures exists r :: r in results && results[r].task == u {
      assert tasks[u].state.Completed?;
    }
  }

  /** Only the closing rows and the agent differ. */
  ghost predicate OnlyRows(s: Db, s': Db) {
    s'.batches == s.batches && s'.escalations == s.escalations && s'.results == s.results && s'.outbox == s.outbox
  }

  lemma OneInProgress(tasks: map<Id, Task>, tasks': map<Id, Task>, t: Id)
    requires TaskClosed(tasks, tasks', t) && tasks' == tasks[t := tasks'[t]] && tasks[t].Held()
      && tasks'[t].state.RetryWait?
    ensures SameProgress(tasks, tasks')
  {
  }

  lemma RetryEnds(s: Db, s': Db, a: Id)
    requires Inv(s) && Closes(s, s', a) && OnlyRows(s, s')
    requires s'.tasks == s.tasks[s.attempts[a].task := s'.tasks[s.attempts[a].task]]
    requires s'.tasks[s.attempts[a].task].state.RetryWait? && !s'.agents[s.attempts[a].agent].state.Suspended?
    requires Safe(s', a)
    ensures WellEnded(s, s', a)
  {
    ActiveAttempt(s, a);
    var t, g := s.attempts[a].task, s.attempts[a].agent;
    ClosedEscalated(s.tasks, s'.tasks, s.agents, s'.agents, s.escalations, t, g);
    ClosedDeps(s.tasks, s'.tasks, t);
    OneInProgress(s.tasks, s'.tasks, t);
    ProgressBatches(s.tasks, s'.tasks, s.batches);
    ProgressResults(s.tasks, s'.tasks, s.batches, s.results, s.outbox);
  }

  lemma RetryCloses(s0: Db, s: Db, a: Id, attempt: AttemptState, lease: LeaseState, eligible: real, now: real)
    requires Marked(s0, s, a) && Closable(s0, a) && !attempt.Active? && !lease.Active?
    requires CloseRetry(s, a, attempt, lease, eligible, now).Ok?
    ensures var s' := CloseRetry(s, a, attempt, lease, eligible, now).value;
      && Closes(s0, s', a) && OnlyRows(s0, s') && s'.executions == s.executions
      && s'.tasks == s0.tasks[s0.attempts[a].task := s'.tasks[s0.attempts[a].task]]
      && s'.tasks[s0.attempts[a].task].state.RetryWait? && !s'.agents[s0.attempts[a].agent].state.Suspended?
  {
    var s1 := ClosedRows(s, a, attempt, lease, TaskState.RetryWait, Some(eligible));
    RowsClose(s0, s, a, attempt, lease, TaskState.RetryWait, Some(eligible));
    ReleaseFrees(s1, s0.attempts[a].agent, now);
    FreedCloses(s0, s, a, attempt, lease, TaskState.RetryWait, Some(eligible),
                CloseRetry(s, a, attempt, lease, eligible, now).value);
  }

  /** Back to RETRY_WAIT. */
  lemma RetryInv(s0: Db, s: Db, a: Id, attempt: AttemptState, lease: LeaseState, eligible: real, now: real)
    requires Inv(s0) && Marked(s0, s, a) && a in s0.attempts && s0.attempts[a].state.Active?
      && s0.attempts[a].task in s0.tasks
    requires !attempt.Active? && !lease.Active? && Safe(s, a)
    requires s0.attempts[a].number < s0.tasks[s0.attempts[a].task].maxAttempts
    requires CloseRetry(s, a, attempt, lease, eligible, now).Ok?
    ensures Inv(CloseRetry(s, a, attempt, lease, eligible, now).value)
    ensures Settled(s0, CloseRetry(s, a, attempt, lease, eligible, now).value, a)
  {
    InvClosable(s0, a);
    RetryCloses(s0, s, a, attempt, lease, eligible, now);
    var s' := CloseRetry(s, a, attempt, lease, eligible, now).value;
    RetrySafe(s0, s, s', a);
    RetryEnds(s0, s', a);
    ClosesInv(s0, s', a);
    ActiveAttempt(s0, a);
  }

  lemma RetrySafe(s0: Db, s: Db, s': Db, a: Id)
    requires Marked(s0, s, a) && Closes(s0, s', a) && s'.executions == s.executions && Safe(s, a)
    ensures Safe(s', a)
  {
  }

  // ---------------------------------------------------------------- suspension and cancellation

  /** One OPEN escalation for the task was inserted, with its decision request. */
  ghost predicate Raised(s: Db, s': Db, t: Id, g: Id, k: Id, e: Id)
    requires t in s.tasks
  {
    && k !in s.escalations && k in s'.escalations && e !in s.outbox
    && s'.escalations == s.escalations[k := s'.escalations[k]] && RaisedFor(s'.escalations[k], s.tasks[t], t, g)
    && s'.outbox == s.outbox[e := DecisionRequired(k)]
  }

  predicate Stopped(task: Task) {
    task.state.Suspended? || task.state.Cancelled?
  }

  /** A stopped task makes its batch SUSPENDED and never ready. */
  lemma StoppedBatch(tasks: map<Id, Task>, tasks': map<Id, Task>, batches: map<Id, BatchState>,
                     outbox: map<Id, Event>, t: Id)
    requires t in tasks && t in tasks' && tasks' == tasks[t := tasks'[t]] && tasks'[t].batch == tasks[t].batch
    requires Stopped(tasks'[t]) && !tasks[t].state.Completed? && tasks[t].batch in batches
    requires BatchesAgree(tasks, batches) && NoticesMatch(tasks, batches, outbox)
    ensures BatchesAgree(tasks', batches[tasks[t].batch := BatchNext(tasks', tasks[t].batch)])
    ensures NoticesMatch(tasks', batches[tasks[t].batch := BatchNext(tasks', tasks[t].batch)], outbox)
  {
    var b := tasks[t].batch;
    assert BatchTouched(tasks, tasks', b);
    RecomputedBatches(tasks, tasks', batches, b);
    RecomputedNotices(tasks, tasks', batches, outbox, b, 0);
  }

  lemma StoppedEnds(s: Db, s': Db, a: Id, k: Id, e: Id)
    requires Inv(s) && Closes(s, s', a)
    requires s'.tasks == s.tasks[s.attempts[a].task := s'.tasks[s.attempts[a].task]]
      && Stopped(s'.tasks[s.attempts[a].task])
    requires Raised(s, s', s.attempts[a].task, s.attempts[a].agent, k, e)
    requires s'.agents[s.attempts[a].agent].state.Suspended? <==> s'.escalations[k].cause.WriterQuiescenceUnknown?
    requires s'.escalations[k].cause.WriterQuiescenceUnknown? || Safe(s', a)
    requires s.tasks[s.attempts[a].task].batch in s.batches && s'.results == s.results
    requires s'.batches
      == s.batches[s.tasks[s.attempts[a].task].batch := BatchNext(s'.tasks, s.tasks[s.attempts[a].task].batch)]
    ensures WellEnded(s, s', a)
  {
    ActiveAttempt(s, a);
    var t, g := s.attempts[a].task, s.attempts[a].agent;
    RaisedEscalated(s.tasks, s'.tasks, s.agents, s'.agents, s.escalations, k, s'.escalations[k], t, g);
    ClosedDeps(s.tasks, s'.tasks, t);
    ClosedResults(s.tasks, s'.tasks, s.results, t);
    StoppedBatch(s.tasks, s'.tasks, s.batches, s.outbox, t);
    DecisionNotices(s'.tasks, s'.batches, s.outbox, e, k);
    RaisedSettles(s, s', a, k, e);
  }

  lemma RaisedSettles(s: Db, s': Db, a: Id, k: Id, e: Id)
    requires Closes(s, s', a) && Raised(s, s', s.attempts[a].task, s.attempts[a].agent, k, e)
      && Stopped(s'.tasks[s.attempts[a].task])
    requires s'.escalations[k].cause.WriterQuiescenceUnknown? || Safe(s', a)
    ensures HoldsKept(s.escalations, s'.escalations)
    ensures WriterSettled(s'.tasks, s'.executions, s'.escalations, a, s.attempts[a].task)
  {
    if s'.escalations[k].cause.WriterQuiescenceUnknown? {
      assert s'.escalations[k].task == s.attempts[a].task && s'.escalations[k].Hold();
      assert HasHold(s'.escalations, s.attempts[a].task);
    }
  }

  lemma SuspendedRowsClose(s0: Db, s: Db, a: Id, attempt: AttemptState, lease: LeaseState, cause: FailureClass,
                           now: real)
    requires Marked(s0, s, a) && Closable(s0, a) && !attempt.Active? && !lease.Active?
    requires SuspendedRows(s, a, attempt, lease, cause, now).Ok?
    ensures StoppedRows(s0, s, SuspendedRows(s, a, attempt, lease, cause, now).value, a, cause)
  {
    var next := s.tasks[s.attempts[a].task].nextEligible;
    RowsClose(s0, s, a, attempt, lease, TaskState.Suspended, next);
    if cause.WriterQuiescenceUnknown? {
      SuspendedCloses(s0, s, a, attempt, lease, TaskState.Suspended, next);
    } else {
      ReleaseFrees(ClosedRows(s, a, attempt, lease, TaskState.Suspended, next), s0.attempts[a].agent, now);
      FreedCloses(s0, s, a, attempt, lease, TaskState.Suspended, next,
                  SuspendedRows(s, a, attempt, lease, cause, now).value);
    }
  }

  /** Escalation and batch are written on top of the closed rows. */
  lemma EscalateValue(s: Db, t: Id, g: Id, cause: FailureClass, drawn: Drawn, b: Id)
    requires t in s.tasks && s.tasks[t].batch == b && Stopped(s.tasks[t]) && !HasOpen(s.escalations, t)
    requires b in s.batches && !s.batches[b].Cancelled? && !s.batches[b].Completed?
    requires CreateEscalation(s, t, g, cause, drawn).Ok?
    requires RecomputeBatch(CreateEscalation(s, t, g, cause, drawn).value, b, drawn.notice).Ok?
    ensures var s' := RecomputeBatch(CreateEscalation(s, t, g, cause, drawn).value, b, drawn.notice).value;
      && s' == s.(escalations := s'.escalations, outbox := s'.outbox, batches := s.batches[b := BatchNext(s.tasks, b)])
      && Raised(s, s', t, g, drawn.escalation, drawn.decision) && s'.escalations[drawn.escalation].cause == cause
  {
    RecomputeValue(CreateEscalation(s, t, g, cause, drawn).value, b, drawn.notice);
  }

  /** Everything a suspension writes, seen from before it. */
  ghost predicate SuspendShaped(s0: Db, s: Db, s': Db, a: Id, cause: FailureClass, k: Id, e: Id) {
    && Closes(s0, s', a) && s'.results == s0.results && s'.executions == s.executions
    && var t, g := s0.attempts[a].task, s0.attempts[a].agent;
    var b := s0.tasks[t].batch;
    && s'.tasks == s0.tasks[t := s'.tasks[t]] && Stopped(s'.tasks[t])
    && Raised(s0, s', t, g, k, e) && s'.escalations[k].cause == cause
    && (s'.agents[g].state.Suspended? <==> cause.WriterQuiescenceUnknown?)
    && b in s0.batches && s'.batches == s0.batches[b := BatchNext(s'.tasks, b)]
  }

  /** A batch with a held task is neither cancelled nor complete. */
  lemma HeldBatch(s: Db, t: Id)
    requires BatchesAgree(s.tasks, s.batches) && t in s.tasks && !s.tasks[t].Terminal()
    ensures s.tasks[t].batch in s.batches && !s.batches[s.tasks[t].batch].Cancelled?
      && !s.batches[s.tasks[t].batch].Completed?
    ensures !AllCompleted(s.tasks, s.tasks[t].batch)
  {
    assert BatchAgrees(s.tasks, s.tasks[t].batch, s.batches[s.tasks[t].batch]);
  }

  ghost predicate Suspendable(s: Db, a: Id) {
    && Closable(s, a) && !HasOpen(s.escalations, s.attempts[a].task)
    && var b := s.tasks[s.attempts[a].task].batch;
    b in s.batches && !s.batches[b].Cancelled? && !s.batches[b].Completed?
  }

  lemma InvSuspendable(s: Db, a: Id)
    requires Inv(s) && a in s.attempts && s.attempts[a].state.Active?
    ensures Suspendable(s, a)
  {
    InvClosable(s, a);
    HeldSuspendable(s, a);
  }

  lemma HeldSuspendable(s: Db, a: Id)
    requires Closable(s, a) && Escalated(s.tasks, s.agents, s.escalations) && BatchesAgree(s.tasks, s.batches)
    ensures Suspendable(s, a)
  {
    HeldNotOpen(s.tasks, s.agents, s.escalations, s.attempts[a].task);
    HeldBatch(s, s.attempts[a].task);
  }

  /** Closed rows of a task that now waits for a decision. */
  ghost predicate StoppedRows(s0: Db, s: Db, s2: Db, a: Id, cause: FailureClass) {
    && Closes(s0, s2, a) && OnlyRows(s0, s2) && s2.executions == s.executions
    && s2.tasks == s0.tasks[s0.attempts[a].task := s2.tasks[s0.attempts[a].task]]
    && Stopped(s2.tasks[s0.attempts[a].task])
    && (s2.agents[s0.attempts[a].agent].state.Suspended? <==> cause.WriterQuiescenceUnknown?)
  }

  lemma EscalatedShape(s0: Db, s: Db, s2: Db, a: Id, cause: FailureClass, drawn: Drawn)
    requires StoppedRows(s0, s, s2, a, cause) && Suspendable(s0, a)
    requires CreateEscalation(s2, s0.attempts[a].task, s0.attempts[a].agent, cause, drawn).Ok?
    requires RecomputeBatch(CreateEscalation(s2, s0.attempts[a].task, s0.attempts[a].agent, cause, drawn).value,
                            s0.tasks[s0.attempts[a].task].batch, drawn.notice).Ok?
    ensures SuspendShaped(s0, s,
                          RecomputeBatch(CreateEscalation(s2, s0.attempts[a].task, s0.attempts[a].agent, cause,
                                                          drawn).value,
                                                s0.tasks[s0.attempts[a].task].batch, drawn.notice).value,
                          a, cause, drawn.escalation, drawn.decision)
  {
    var t := s0.attempts[a].task;
    EscalateValue(s2, t, s0.attempts[a].agent, cause, drawn, s0.tasks[t].batch);
  }

  lemma SuspendShape(s0: Db, s: Db, a: Id, attempt: AttemptState, lease: LeaseState, cause: FailureClass,
                     drawn: Drawn, now: real)
    requires Marked(s0, s, a) && Suspendable(s0, a) && !attempt.Active? && !lease.Active?
    requires CloseSuspended(s, a, attempt, lease, cause, drawn, now).Ok?
    ensures SuspendShaped(s0, s, CloseSuspended(s, a, attempt, lease, cause, drawn, now).value, a, cause,
                          drawn.escalation, drawn.decision)
  {
    SuspendedRowsClose(s0, s, a, attempt, lease, cause, now);
    EscalatedShape(s0, s, SuspendedRows(s, a, attempt, lease, cause, now).value, a, cause, drawn);
  }

  lemma ShapedSettled(s0: Db, s: Db, s': Db, a: Id, cause: FailureClass, k: Id, e: Id)
    requires SuspendShaped(s0, s, s', a, cause, k, e) && s0.tasks[s0.attempts[a].task].Held()
    ensures Settled(s0, s', a)
  {
  }

  lemma ShapedInv(s0: Db, s: Db, s': Db, a: Id, cause: FailureClass, k: Id, e: Id)
    requires Inv(s0) && Marked(s0, s, a) && SuspendShaped(s0, s, s', a, cause, k, e)
    requires cause.WriterQuiescenceUnknown? || Safe(s, a)
    ensures Inv(s') && Settled(s0, s', a)
  {
    ActiveAttempt(s0, a);
    ShapedSettled(s0, s, s', a, cause, k, e);
    if !cause.WriterQuiescenceUnknown? {
      RetrySafe(s0, s, s', a);
    }
    StoppedEnds(s0, s', a, k, e);
    ClosesInv(s0, s', a);
  }

  /** SUSPENDED with a decision for Root; an unsafe writer takes its agent with it. */
  lemma SuspendInv(s0: Db, s: Db, a: Id, attempt: AttemptState, lease: LeaseState, cause: FailureClass, drawn: Drawn,
                   now: real)
    requires Inv(s0) && Marked(s0, s, a) && a in s0.attempts && s0.attempts[a].state.Active?
      && s0.attempts[a].task in s0.tasks
    requires !attempt.Active? && !lease.Active? && (cause.WriterQuiescenceUnknown? || Safe(s, a))
    requires CloseSuspended(s, a, attempt, lease, cause, drawn, now).Ok?
    ensures Inv(CloseSuspended(s, a, attempt, lease, cause, drawn, now).value)
    ensures Settled(s0, CloseSuspended(s, a, attempt, lease, cause, drawn, now).value, a)
  {
    InvSuspendable(s0, a);
    SuspendShape(s0, s, a, attempt, lease, cause, drawn, now);
    ShapedInv(s0, s, CloseSuspended(s, a, attempt, lease, cause, drawn, now).value, a, cause, drawn.escalation,
              drawn.decision);
  }
}
