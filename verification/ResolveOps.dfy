/** Resolving an escalation keeps the whole invariant. */
module ResolveOps {
  import opened Options
  import opened RowOrder
  import opened Tables
  import opened Topology
  import opened Work
  import opened Invariants
  import opened TopologyProofs
  import opened ReshapeProofs
  import opened Closing
  import opened Settlement
  import opened CancelOps
  import opened History

  // ---------------------------------------------------------------- the latest attempt

  lemma LatestIs(tasks: map<Id, Task>, attempts: map<Id, Attempt>, leases: map<Id, Lease>, t: Id, a: Id)
    requires Fenced(tasks, attempts, leases) && a in attempts && attempts[a].task == t && t in tasks
      && attempts[a].number == tasks[t].epoch
    ensures Latest(attempts, t) == Some(a)
  {
    var all := AttemptsOf(attempts, t);
    assert a in all;
    var rows := NumberRows(attempts, all);
    var k := Least(rows, all);
    assert AttemptFenced(tasks, attempts[k], leases[k], k);
    assert k != a ==> Before(rows[k], rows[a]);
  }

  lemma LatestExecutionIs(s: Db, t: Id, a: Id, x: Id)
    requires Latest(s.attempts, t) == Some(a) && x in s.executions && s.executions[x].attempt == a
    requires Physical(s.executions, s.attempts, s.incarnations)
    ensures LatestExecution(s, t) == Some(x)
  {
    assert x in ExecutionsOf(s.executions, a);
  }

  lemma FinalizeAlike(s: Db, t: Id, confirmed: bool)
    ensures var s' := FinalizeWriter(s, t, confirmed);
      && s' == s.(executions := s'.executions, incarnations := s'.incarnations)
      && ExecutionsAlike(s.executions, s'.executions) && IncsKept(s.incarnations, s'.incarnations)
  {
  }

  /** Finalising leaves no unsafe writer on the last attempt. */
  lemma FinalizeSafe(s: Db, t: Id, confirmed: bool, x: Id)
    requires t in s.tasks && x in s.executions && s.executions[x].attempt in s.attempts
    requires s.attempts[s.executions[x].attempt].task == t
      && s.attempts[s.executions[x].attempt].number == s.tasks[t].epoch
    requires Fenced(s.tasks, s.attempts, s.leases) && Physical(s.executions, s.attempts, s.incarnations)
    requires confirmed || FrozenIsolation(s, t)
    ensures x in FinalizeWriter(s, t, confirmed).executions && !FinalizeWriter(s, t, confirmed).executions[x].Unsafe()
  {
    var a := s.executions[x].attempt;
    LatestIs(s.tasks, s.attempts, s.leases, t, a);
    LatestExecutionIs(s, t, a, x);
  }

  // ---------------------------------------------------------------- the agent

  lemma RevivalFrees(s: Db, g: Id, now: real)
    requires g in s.agents && !s.agents[g].state.Retired? && s.agents[g].partition in s.partitions
      && PrepareRevival(s, g, now).Ok?
    ensures var s' := PrepareRevival(s, g, now).value;
      && g in s'.agents && s' == s.(agents := s.agents[g := s'.agents[g]], incarnations := s'.incarnations)
      && IncsKept(s.incarnations, s'.incarnations)
      && Disengaged(s'.agents[g]) && !s'.agents[g].state.Suspended? && AgentPlaced(s'.agents[g], s.partitions)
  {
    ReleaseFrees(s, g, now);
    var s1 := ReleaseAgent(s, g, now).value;
    if s1.agents[g].state.Ready? {
      var row := s1.agents[g].(state := AgentState.Reviving, available := None);
      assert s1.agents[g := row] == s.agents[g := row];
    }
  }

  // ---------------------------------------------------------------- table by table

  /** Resolving may requeue the task, and frees the agent of a writer. */
  ghost predicate Resolved(s: Db, s': Db, k: Id) {
    && k in s.escalations && s.escalations[k].state.Open?
    && s' == s.(tasks := s'.tasks, executions := s'.executions, incarnations := s'.incarnations, agents := s'.agents,
                escalations := s'.escalations, batches := s'.batches)
    && s'.escalations == s.escalations[k := s.escalations[k].(state := EscalationState.Resolved)]
    && IncsKept(s.incarnations, s'.incarnations) && ExecutionsAlike(s.executions, s'.executions)
    && TaskResolved(s.tasks, s'.tasks, s.escalations[k].task)
    && AgentResolved(s.agents, s'.agents, s.escalations[k], s.partitions)
  }

  ghost predicate TaskResolved(tasks: map<Id, Task>, tasks': map<Id, Task>, t: Id) {
    && t in tasks
    && ( || (tasks[t].state.Cancelled? && tasks' == tasks)
         || (tasks[t].state.Suspended?
             && tasks' == tasks[t := tasks[t].(state := TaskState.Queued, nextEligible := None)]))
  }

  ghost predicate AgentResolved(agents: map<Id, Agent>, agents': map<Id, Agent>, e: Escalation,
                                parts: map<Id, Partition>) {
    if e.cause.WriterQuiescenceUnknown?
    then && e.agent in agents && e.agent in agents' && agents' == agents[e.agent := agents'[e.agent]]
         && Disengaged(agents'[e.agent]) && !agents'[e.agent].state.Suspended? && AgentPlaced(agents'[e.agent], parts)
    else agents' == agents
  }

  lemma ResolvedFenced(s: Db, s': Db, k: Id)
    requires Resolved(s, s', k)
    requires Fenced(s.tasks, s.attempts, s.leases) && EpochsCount(s.tasks, s.attempts)
    ensures Fenced(s'.tasks, s'.attempts, s'.leases) && EpochsCount(s'.tasks, s'.attempts)
  {
    forall a | a in s.attempts ensures AttemptFenced(s'.tasks, s.attempts[a], s.leases[a], a) {
      assert AttemptFenced(s.tasks, s.attempts[a], s.leases[a], a);
    }
    forall t | t in s.tasks ensures TaskFenced(s'.tasks[t], s.attempts, t) {
      assert TaskFenced(s.tasks[t], s.attempts, t);
    }
  }

  lemma ResolvedHomes(s: Db, s': Db, k: Id)
    requires Resolved(s, s', k) && Homes(s.tasks, s.agents)
    ensures Homes(s'.tasks, s'.agents)
  {
  }

  lemma ResolvedEngaged(s: Db, s': Db, k: Id)
    requires Resolved(s, s', k) && AgentsEngaged(s.tasks, s.attempts, s.agents)
    requires s.escalations[k].cause.WriterQuiescenceUnknown? ==> s.agents[s.escalations[k].agent].state.Suspended?
    ensures AgentsEngaged(s'.tasks, s'.attempts, s'.agents)
  {
    var g := s.escalations[k].agent;
    assert g in s.agents ==> AgentAssigned(s.tasks, s.attempts, s.agents[g], g);
    forall h | h in s'.agents ensures AgentAssigned(s'.tasks, s'.attempts, s'.agents[h], h) {
      assert AgentAssigned(s.tasks, s.attempts, s.agents[h], h);
    }
  }

  /** A requeued task has no unsafe writer left. */
  ghost predicate WriterFinal(s: Db, s': Db, t: Id) {
    t in s.tasks && s.tasks[t].state.Suspended? && s.tasks[t].mode.Write? ==>
      forall x | x in s'.executions && s'.executions[x].task == t && s'.executions[x].attempt in s'.attempts
                 && s'.attempts[s'.executions[x].attempt].number == s.tasks[t].epoch
                 && !s'.attempts[s'.executions[x].attempt].state.Active? :: !s'.executions[x].Unsafe()
  }

  lemma ResolvedHold(s: Db, s': Db, k: Id, t: Id)
    requires Resolved(s, s', k) && t != s.escalations[k].task && HasHold(s.escalations, t)
    ensures HasHold(s'.escalations, t)
  {
    var j :| j in s.escalations && s.escalations[j].task == t && s.escalations[j].Hold();
    assert s'.escalations[j].task == t && s'.escalations[j].Hold();
  }

  lemma ResolvedWriters(s: Db, s': Db, k: Id)
    requires Resolved(s, s', k) && WriterFinal(s, s', s.escalations[k].task)
    requires WritersHeld(s.tasks, s.attempts, s.executions, s.escalations)
    ensures WritersHeld(s'.tasks, s'.attempts, s'.executions, s'.escalations)
  {
    forall x | x in s'.executions ensures WriterHeld(s'.tasks, s'.attempts, s'.executions[x], s'.escalations) {
      var e := s.executions[x];
      assert WriterHeld(s.tasks, s.attempts, e, s.escalations) && ExecutionAlike(e, s'.executions[x]);
      if e.task != s.escalations[k].task && HasHold(s.escalations, e.task) {
        ResolvedHold(s, s', k, e.task);
      }
    }
  }

  lemma ResolvedOpen(s: Db, s': Db, k: Id, t: Id)
    requires Resolved(s, s', k) && t != s.escalations[k].task && HasOpen(s.escalations, t)
    ensures HasOpen(s'.escalations, t)
  {
    var j :| j in s.escalations && s.escalations[j].task == t && s.escalations[j].state.Open?;
    assert s'.escalations[j].task == t && s'.escalations[j].state.Open?;
  }

  lemma ResolvedHoldOn(s: Db, s': Db, k: Id, g: Id)
    requires Resolved(s, s', k) && (s.escalations[k].Hold() ==> g != s.escalations[k].agent) && HoldOn(s.escalations, g)
    ensures HoldOn(s'.escalations, g)
  {
    var j :| j in s.escalations && s.escalations[j].agent == g && s.escalations[j].Hold();
    assert s'.escalations[j].agent == g && s'.escalations[j].Hold();
  }

  lemma ResolvedSound(s: Db, s': Db, k: Id, j: Id)
    requires Resolved(s, s', k) && Escalated(s.tasks, s.agents, s.escalations) && j in s.escalations
    ensures EscalationSound(s'.tasks, s'.agents, s'.escalations[j])
  {
    assert EscalationSound(s.tasks, s.agents, s.escalations[j]);
  }

  lemma ResolvedEscalated(s: Db, s': Db, k: Id)
    requires Resolved(s, s', k) && Escalated(s.tasks, s.agents, s.escalations)
    ensures Escalated(s'.tasks, s'.agents, s'.escalations)
  {
    forall j | j in s'.escalations ensures EscalationSound(s'.tasks, s'.agents, s'.escalations[j]) {
      ResolvedSound(s, s', k, j);
    }
    forall t | t in s'.tasks && s'.tasks[t].state.Suspended? ensures HasOpen(s'.escalations, t) {
      ResolvedOpen(s, s', k, t);
    }
    forall g | g in s'.agents && s'.agents[g].state.Suspended? ensures HoldOn(s'.escalations, g) {
      ResolvedHoldOn(s, s', k, g);
    }
  }

  lemma ResolvedTasks(s: Db, s': Db, k: Id)
    requires Resolved(s, s', k) && DepsSettled(s.tasks) && DepsOrdered(s.tasks)
    ensures DepsSettled(s'.tasks) && DepsOrdered(s'.tasks)
  {
    forall t | t in s'.tasks ensures TaskDeps(s'.tasks, s'.tasks[t]) {
      assert TaskDeps(s.tasks, s.tasks[t]);
      if s.tasks[t].state.Blocked? {
        var d :| d in s.tasks[t].deps && d in s.tasks && !s.tasks[d].state.Completed?;
        assert d in s'.tasks && !s'.tasks[d].state.Completed?;
      }
    }
    SameDepsOrdered(s.tasks, s'.tasks);
  }

  lemma ResolvedPlaced(s: Db, s': Db, k: Id)
    requires Resolved(s, s', k) && ResultsMatch(s.tasks, s.results) && TopologyOk(s)
    ensures ResultsMatch(s'.tasks, s'.results) && TopologyOk(s')
  {
  }

  /** Batch rows after a resolution: unchanged, or recomputed for the requeued task. */
  ghost predicate BatchResolved(s: Db, s': Db, t: Id) {
    && t in s.tasks && t in s'.tasks && s.tasks[t].batch in s.batches
    && var b := s.tasks[t].batch;
    if s.tasks[t].state.Suspended? then s'.batches == s.batches[b := BatchNext(s'.tasks, b)]
      else s'.batches == s.batches
  }

  lemma ResolvedBatches(s: Db, s': Db, k: Id)
    requires Resolved(s, s', k) && BatchResolved(s, s', s.escalations[k].task)
    requires BatchesAgree(s.tasks, s.batches) && NoticesMatch(s.tasks, s.batches, s.outbox)
    ensures BatchesAgree(s'.tasks, s'.batches) && NoticesMatch(s'.tasks, s'.batches, s'.outbox)
  {
    var t := s.escalations[k].task;
    var b := s.tasks[t].batch;
    if s.tasks[t].state.Suspended? {
      assert BatchTouched(s.tasks, s'.tasks, b);
      RecomputedBatches(s.tasks, s'.tasks, s.batches, b);
      assert !s.tasks[t].state.Completed? && !s'.tasks[t].state.Completed?;
      RecomputedNotices(s.tasks, s'.tasks, s.batches, s.outbox, b, 0);
    }
  }

  lemma ResolvedInv(s: Db, s': Db, k: Id)
    requires Inv(s) && Resolved(s, s', k) && WriterFinal(s, s', s.escalations[k].task)
      && BatchResolved(s, s', s.escalations[k].task)
    ensures Inv(s')
  {
    assert EscalationSound(s.tasks, s.agents, s.escalations[k]);
    ResolvedFenced(s, s', k);
    ResolvedEngaged(s, s', k);
    ResolvedHomes(s, s', k);
    ResolvedWriters(s, s', k);
    ResolvedEscalated(s, s', k);
    ResolvedTasks(s, s', k);
    ResolvedPlaced(s, s', k);
    ResolvedBatches(s, s', k);
    KeptPhysical(s.executions, s'.executions, s.attempts, s.incarnations, s'.incarnations);
  }

  /** Only the resolved escalation is settled and only its task is pardoned. */
  lemma ResolvedEvolves(s: Db, s': Db, k: Id, now: real)
    requires Resolved(s, s', k)
    ensures Evolves(s, s', now, if s.tasks[s.escalations[k].task].state.Suspended? then Some(s.escalations[k].task)
      else None, Some(k))
  {
    var t := s.escalations[k].task;
    forall u | u in s.tasks ensures TaskEvolves(s.tasks[u], s'.tasks[u], s.tasks[t].state.Suspended? && t == u) {
    }
  }

  // ---------------------------------------------------------------- releasing the writer

  lemma ReleaseWriterShape(s: Db, e: Escalation, confirmed: bool, now: real)
    requires e.agent in s.agents && s.agents[e.agent].state.Suspended? && s.agents[e.agent].partition in s.partitions
    requires e.cause.WriterQuiescenceUnknown? && ReleaseWriter(s, e, confirmed, now).Ok?
    ensures var s' := ReleaseWriter(s, e, confirmed, now).value;
      && s' == s.(executions := s'.executions, incarnations := s'.incarnations, agents := s'.agents)
      && s'.executions == FinalizeWriter(s, e.task, confirmed).executions
        && ExecutionsAlike(s.executions, s'.executions)
      && IncsKept(s.incarnations, s'.incarnations) && AgentResolved(s.agents, s'.agents, e, s.partitions)
  {
    FinalizeAlike(s, e.task, confirmed);
    RevivalFrees(FinalizeWriter(s, e.task, confirmed), e.agent, now);
  }

  /** An open escalation of another cause means the task has no unsafe writer. */
  lemma NoUnsafeWriter(s: Db, k: Id, x: Id)
    requires Escalated(s.tasks, s.agents, s.escalations)
      && WritersHeld(s.tasks, s.attempts, s.executions, s.escalations)
    requires k in s.escalations && s.escalations[k].state.Open? && !s.escalations[k].cause.WriterQuiescenceUnknown?
    requires x in s.executions && s.executions[x].task == s.escalations[k].task && s.executions[x].attempt in s.attempts
    requires !s.attempts[s.executions[x].attempt].state.Active?
    requires s.tasks[s.escalations[k].task].state.Suspended? && s.tasks[s.escalations[k].task].mode.Write?
    ensures !s.executions[x].Unsafe()
  {
    assert WriterHeld(s.tasks, s.attempts, s.executions[x], s.escalations);
  }

  lemma OtherCauseFinal(s: Db, s': Db, k: Id)
    requires Escalated(s.tasks, s.agents, s.escalations)
      && WritersHeld(s.tasks, s.attempts, s.executions, s.escalations)
    requires k in s.escalations && s.escalations[k].state.Open? && !s.escalations[k].cause.WriterQuiescenceUnknown?
    requires s'.executions == s.executions && s'.attempts == s.attempts
    ensures WriterFinal(s, s', s.escalations[k].task)
  {
    var t := s.escalations[k].task;
    if t in s.tasks && s.tasks[t].state.Suspended? && s.tasks[t].mode.Write? {
      forall x | x in s'.executions && s'.executions[x].task == t && s'.executions[x].attempt in s'.attempts
                 && s'.attempts[s'.executions[x].attempt].number == s.tasks[t].epoch
                 && !s'.attempts[s'.executions[x].attempt].state.Active?
        ensures !s'.executions[x].Unsafe() {
        NoUnsafeWriter(s, k, x);
      }
    }
  }

  lemma WriterCauseFinal(s: Db, s': Db, t: Id, confirmed: bool)
    requires Fenced(s.tasks, s.attempts, s.leases) && Physical(s.executions, s.attempts, s.incarnations)
    requires s'.executions == FinalizeWriter(s, t, confirmed).executions && s'.attempts == s.attempts
    requires t in s.tasks
      && (s.tasks[t].mode.Write? && s.tasks[t].state.Suspended? ==> confirmed || FrozenIsolation(s, t))
    ensures WriterFinal(s, s', t)
  {
    FinalizeAlike(s, t, confirmed);
    if s.tasks[t].state.Suspended? && s.tasks[t].mode.Write? {
      forall x | x in s'.executions && s'.executions[x].task == t && s'.executions[x].attempt in s'.attempts
                 && s'.attempts[s'.executions[x].attempt].number == s.tasks[t].epoch
                 && !s'.attempts[s'.executions[x].attempt].state.Active?
        ensures !s'.executions[x].Unsafe() {
        assert ExecutionAlike(s.executions[x], s'.executions[x]);
        assert ExecutionPhysical(s.executions[x], s.attempts);
        FinalizeSafe(s, t, confirmed, x);
      }
    }
  }

  lemma FinalizeIgnores(s: Db, s1: Db, t: Id, confirmed: bool)
    requires s1.attempts == s.attempts && s1.executions == s.executions
    ensures FinalizeWriter(s1, t, confirmed).executions == FinalizeWriter(s, t, confirmed).executions
  {
  }

  // ---------------------------------------------------------------- the three resolutions

  /** What the invariant says of an open escalation. */
  lemma OpenEscalation(s: Db, k: Id)
    requires Inv(s) && k in s.escalations && s.escalations[k].state.Open?
    ensures s.escalations[k].task in s.tasks && s.escalations[k].agent in s.agents
    ensures s.tasks[s.escalations[k].task].state.Suspended? || s.tasks[s.escalations[k].task].state.Cancelled?
    ensures s.escalations[k].cause.WriterQuiescenceUnknown? ==> s.agents[s.escalations[k].agent].state.Suspended?
    ensures s.agents[s.escalations[k].agent].partition in s.partitions
    ensures s.tasks[s.escalations[k].task].batch in s.batches
  {
    assert EscalationSound(s.tasks, s.agents, s.escalations[k]);
    assert AgentPlaced(s.agents[s.escalations[k].agent], s.partitions);
  }

  /** A batch with a suspended task is SUSPENDED. */
  lemma SuspendedBatch(s: Db, t: Id)
    requires BatchesAgree(s.tasks, s.batches) && t in s.tasks && s.tasks[t].state.Suspended?
    ensures s.tasks[t].batch in s.batches && s.batches[s.tasks[t].batch].Suspended?
  {
    assert BatchAgrees(s.tasks, s.tasks[t].batch, s.batches[s.tasks[t].batch]);
  }

  lemma RequeueValue(s: Db, t: Id)
    requires t in s.tasks && s.tasks[t].state.Suspended? && s.tasks[t].batch in s.batches
      && s.batches[s.tasks[t].batch].Suspended?
    ensures var s1 := Requeue(s, t);
      && s1 == s.(tasks := s1.tasks, batches := s.batches[s.tasks[t].batch := BatchState.Active])
      && TaskResolved(s.tasks, s1.tasks, t)
  {
  }

  /** The rows before the batch is recomputed. */
  function RetriedRows(s: Db, k: Id, confirmed: bool, now: real): Outcome<Db>
    requires k in s.escalations && s.escalations[k].task in s.tasks
  {
    var e := s.escalations[k];
    if e.cause.WriterQuiescenceUnknown? then ReleaseWriter(Requeue(s, e.task), e, confirmed, now)
      else Ok(Requeue(s, e.task))
  }

  lemma RetryValue(s: Db, k: Id, confirmed: bool, notice: Id, now: real)
    requires k in s.escalations && s.escalations[k].task in s.tasks && RetryTask(s, k, confirmed, notice, now).Ok?
    ensures s.tasks[s.escalations[k].task].state.Suspended?
    ensures s.escalations[k].cause.WriterQuiescenceUnknown? && s.tasks[s.escalations[k].task].mode.Write?
      ==> confirmed || FrozenIsolation(s, s.escalations[k].task)
    ensures RetriedRows(s, k, confirmed, now).Ok?
    ensures RetryTask(s, k, confirmed, notice, now)
      == RecomputeBatch(CloseEscalation(RetriedRows(s, k, confirmed, now).value, k),
                        s.tasks[s.escalations[k].task].batch, notice)
  {
  }

  /** Everything a retry writes except the escalation and the recomputed batch. */
  ghost predicate Retried(s: Db, s2: Db, k: Id, confirmed: bool) {
    && k in s.escalations && s.escalations[k].task in s.tasks && s.tasks[s.escalations[k].task].batch in s.batches
    && var e := s.escalations[k];
    && s2 == s.(tasks := s2.tasks, executions := s2.executions, incarnations := s2.incarnations, agents := s2.agents,
                batches := s2.batches)
    && s2.batches == s.batches[s.tasks[e.task].batch := BatchState.Active]
    && TaskResolved(s.tasks, s2.tasks, e.task) && AgentResolved(s.agents, s2.agents, e, s.partitions)
    && IncsKept(s.incarnations, s2.incarnations) && ExecutionsAlike(s.executions, s2.executions)
    && s2.executions == if e.cause.WriterQuiescenceUnknown? then FinalizeWriter(s, e.task, confirmed).executions
      else s.executions
  }

  lemma RetriedShape(s: Db, k: Id, confirmed: bool, now: real)
    requires k in s.escalations && s.escalations[k].task in s.tasks && s.tasks[s.escalations[k].task].state.Suspended?
    requires s.tasks[s.escalations[k].task].batch in s.batches
      && s.batches[s.tasks[s.escalations[k].task].batch].Suspended?
    requires s.escalations[k].agent in s.agents && s.agents[s.escalations[k].agent].partition in s.partitions
    requires s.escalations[k].cause.WriterQuiescenceUnknown? ==> s.agents[s.escalations[k].agent].state.Suspended?
    requires RetriedRows(s, k, confirmed, now).Ok?
    ensures Retried(s, RetriedRows(s, k, confirmed, now).value, k, confirmed)
  {
    var e := s.escalations[k];
    RequeueValue(s, e.task);
    if e.cause.WriterQuiescenceUnknown? {
      ReleaseWriterShape(Requeue(s, e.task), e, confirmed, now);
      FinalizeIgnores(s, Requeue(s, e.task), e.task, confirmed);
    }
  }

  lemma RetriedResolves(s: Db, s2: Db, k: Id, confirmed: bool, notice: Id)
    requires Retried(s, s2, k, confirmed) && s.escalations[k].state.Open?
      && s.tasks[s.escalations[k].task].state.Suspended?
    requires RecomputeBatch(CloseEscalation(s2, k), s.tasks[s.escalations[k].task].batch, notice).Ok?
    ensures var s' := RecomputeBatch(CloseEscalation(s2, k), s.tasks[s.escalations[k].task].batch, notice).value;
      && Resolved(s, s', k) && BatchResolved(s, s', s.escalations[k].task)
      && s'.executions == s2.executions && s'.attempts == s.attempts
  {
    var t := s.escalations[k].task;
    var b := s.tasks[t].batch;
    assert s2.tasks[t].batch == b && s2.tasks[t].state.Queued?;
    assert !AllCompleted(s2.tasks, b);
    RecomputeValue(CloseEscalation(s2, k), b, notice);
    assert s2.batches[b := BatchNext(s2.tasks, b)] == s.batches[b := BatchNext(s2.tasks, b)];
  }

  lemma RetriedInv(s: Db, s': Db, k: Id, confirmed: bool)
    requires Inv(s) && Resolved(s, s', k) && BatchResolved(s, s', s.escalations[k].task) && s'.attempts == s.attempts
    requires var e := s.escalations[k];
      s'.executions == if e.cause.WriterQuiescenceUnknown? then FinalizeWriter(s, e.task, confirmed).executions
        else s.executions
    requires s.escalations[k].cause.WriterQuiescenceUnknown? && s.tasks[s.escalations[k].task].mode.Write?
      ==> confirmed || FrozenIsolation(s, s.escalations[k].task)
    ensures Inv(s')
  {
    if s.escalations[k].cause.WriterQuiescenceUnknown? {
      WriterCauseFinal(s, s', s.escalations[k].task, confirmed);
    } else {
      OtherCauseFinal(s, s', k);
    }
    ResolvedInv(s, s', k);
  }

  lemma RetriedEnds(s: Db, s': Db, k: Id, confirmed: bool, now: real)
    requires Inv(s) && Resolved(s, s', k) && BatchResolved(s, s', s.escalations[k].task) && s'.attempts == s.attempts
    requires s.tasks[s.escalations[k].task].state.Suspended?
    requires var e := s.escalations[k];
      s'.executions == if e.cause.WriterQuiescenceUnknown? then FinalizeWriter(s, e.task, confirmed).executions
        else s.executions
    requires s.escalations[k].cause.WriterQuiescenceUnknown? && s.tasks[s.escalations[k].task].mode.Write?
      ==> confirmed || FrozenIsolation(s, s.escalations[k].task)
    ensures Inv(s') && Evolves(s, s', now, Some(s.escalations[k].task), Some(k))
  {
    RetriedInv(s, s', k, confirmed);
    ResolvedEvolves(s, s', k, now);
  }

  lemma RetryTaskInv(s: Db, k: Id, confirmed: bool, notice: Id, now: real)
    requires Inv(s) && k in s.escalations && s.escalations[k].state.Open? && s.escalations[k].task in s.tasks
    requires RetryTask(s, k, confirmed, notice, now).Ok?
    ensures Inv(RetryTask(s, k, confirmed, notice, now).value)
    ensures Evolves(s, RetryTask(s, k, confirmed, notice, now).value, now, Some(s.escalations[k].task), Some(k))
  {
    RetryValue(s, k, confirmed, notice, now);
    OpenEscalation(s, k);
    SuspendedBatch(s, s.escalations[k].task);
    RetriedShape(s, k, confirmed, now);
    RetriedResolves(s, RetriedRows(s, k, confirmed, now).value, k, confirmed, notice);
    RetriedEnds(s, RetryTask(s, k, confirmed, notice, now).value, k, confirmed, now);
  }

  lemma SettledRecompute(s: Db, b: Id, notice: Id)
    requires b in s.batches && (s.batches[b].Cancelled? || s.batches[b] == BatchNext(s.tasks, b))
    ensures RecomputeBatch(s, b, notice) == Ok(s)
  {
  }

  lemma ReleaseCancelledValue(s: Db, k: Id, confirmed: bool, notice: Id, now: real)
    requires k in s.escalations && s.escalations[k].task in s.tasks
      && ReleaseCancelled(s, k, confirmed, notice, now).Ok?
    ensures s.tasks[s.escalations[k].task].state.Cancelled? && s.escalations[k].cause.WriterQuiescenceUnknown?
    ensures ReleaseWriter(s, s.escalations[k], confirmed, now).Ok?
    ensures ReleaseCancelled(s, k, confirmed, notice, now)
      == RecomputeBatch(CloseEscalation(ReleaseWriter(s, s.escalations[k], confirmed, now).value, k),
                        s.tasks[s.escalations[k].task].batch, notice)
  {
  }

  lemma ReleasedResolves(s: Db, s1: Db, k: Id)
    requires k in s.escalations && s.escalations[k].task in s.tasks && s.escalations[k].state.Open?
    requires s.tasks[s.escalations[k].task].state.Cancelled? && s.tasks[s.escalations[k].task].batch in s.batches
    requires s1 == s.(executions := s1.executions, incarnations := s1.incarnations, agents := s1.agents)
    requires ExecutionsAlike(s.executions, s1.executions) && IncsKept(s.incarnations, s1.incarnations)
    requires AgentResolved(s.agents, s1.agents, s.escalations[k], s.partitions)
    ensures Resolved(s, CloseEscalation(s1, k), k) && BatchResolved(s, CloseEscalation(s1, k), s.escalations[k].task)
    ensures WriterFinal(s, CloseEscalation(s1, k), s.escalations[k].task)
  {
  }

  lemma ReleaseCancelledInv(s: Db, k: Id, confirmed: bool, notice: Id, now: real)
    requires Inv(s) && k in s.escalations && s.escalations[k].state.Open? && s.escalations[k].task in s.tasks
    requires ReleaseCancelled(s, k, confirmed, notice, now).Ok?
    ensures Inv(ReleaseCancelled(s, k, confirmed, notice, now).value)
    ensures Evolves(s, ReleaseCancelled(s, k, confirmed, notice, now).value, now, None, Some(k))
  {
    ReleaseCancelledValue(s, k, confirmed, notice, now);
    OpenEscalation(s, k);
    ReleaseWriterShape(s, s.escalations[k], confirmed, now);
    var s1 := ReleaseWriter(s, s.escalations[k], confirmed, now).value;
    ReleasedResolves(s, s1, k);
    ResolvedInv(s, CloseEscalation(s1, k), k);
    ResolvedEvolves(s, CloseEscalation(s1, k), k, now);
    var b := s.tasks[s.escalations[k].task].batch;
    assert BatchAgrees(s.tasks, b, s.batches[b]);
    SettledRecompute(CloseEscalation(s1, k), b, notice);
  }

  // Cancelling leaves a writer's escalation open.

  function Dismissed(s: Db, k: Id): Db {
    if k in s.escalations && s.escalations[k].cause.WriterQuiescenceUnknown? then s else CloseEscalation(s, k)
  }

  lemma DropTables(s: Db, s': Db)
    requires s' == s.(escalations := s'.escalations) && Dropped(s.escalations, s'.escalations, s.tasks)
    requires WritersHeld(s.tasks, s.attempts, s.executions, s.escalations)
      && Escalated(s.tasks, s.agents, s.escalations)
    ensures WritersHeld(s'.tasks, s'.attempts, s'.executions, s'.escalations)
      && Escalated(s'.tasks, s'.agents, s'.escalations)
  {
    assert IdleCancelled(s.tasks, s.tasks, 0);
    IdleWriters(s.tasks, s.tasks, 0, s.attempts, s.executions, s.escalations, s'.escalations);
    IdleEscalated(s.tasks, s.tasks, 0, s.agents, s.escalations, s'.escalations);
  }

  lemma DropInv(s: Db, s': Db)
    requires Inv(s) && s' == s.(escalations := s'.escalations) && Dropped(s.escalations, s'.escalations, s.tasks)
    ensures Inv(s')
  {
    DropTables(s, s');
  }

  /** The escalation's task is already cancelled: only the escalation row may change. */
  lemma DismissValue(s: Db, k: Id, notice: Id)
    requires k in s.escalations && s.escalations[k].task in s.tasks && s.tasks[s.escalations[k].task].state.Cancelled?
    requires s.tasks[s.escalations[k].task].batch in s.batches
    requires BatchAgrees(s.tasks, s.tasks[s.escalations[k].task].batch, s.batches[s.tasks[s.escalations[k].task].batch])
    ensures CancelEscalated(s, k, notice) == Ok(Dismissed(s, k))
  {
    var t := s.escalations[k].task;
    assert s.tasks[t := s.tasks[t].(state := TaskState.Cancelled)] == s.tasks;
    SettledRecompute(Dismissed(s, k), s.tasks[t].batch, notice);
  }

  lemma DismissCancelledInv(s: Db, k: Id, notice: Id, now: real)
    requires Inv(s) && k in s.escalations && s.escalations[k].state.Open? && s.escalations[k].task in s.tasks
    requires s.tasks[s.escalations[k].task].state.Cancelled? && CancelEscalated(s, k, notice).Ok?
    ensures Inv(CancelEscalated(s, k, notice).value) && Evolves(s, CancelEscalated(s, k, notice).value, now, None, None)
  {
    DismissValue(s, k, notice);
    DismissDrops(s, k);
    DropInv(s, Dismissed(s, k));
    DropEvolves(s, Dismissed(s, k), now);
  }

  lemma DropEvolves(s: Db, s': Db, now: real)
    requires s' == s.(escalations := s'.escalations) && Dropped(s.escalations, s'.escalations, s.tasks)
    ensures Evolves(s, s', now, None, None)
  {
    DroppedHold(s.escalations, s'.escalations, s.tasks);
  }

  lemma DismissDrops(s: Db, k: Id)
    requires k in s.escalations && s.escalations[k].state.Open? && s.escalations[k].task in s.tasks
    requires s.tasks[s.escalations[k].task].state.Cancelled?
    ensures Dropped(s.escalations, Dismissed(s, k).escalations, s.tasks)
      && Dismissed(s, k) == s.(escalations := Dismissed(s, k).escalations)
  {
  }

  lemma DismissStops(s: Db, k: Id, notice: Id)
    requires k in s.escalations && s.escalations[k].state.Open? && s.escalations[k].task in s.tasks
    requires s.tasks[s.escalations[k].task].state.Suspended? && s.tasks[s.escalations[k].task].current.None?
    requires s.tasks[s.escalations[k].task].batch in s.batches
      && s.batches[s.tasks[s.escalations[k].task].batch].Suspended?
    requires CancelEscalated(s, k, notice).Ok?
    ensures IdleStopped(s, CancelEscalated(s, k, notice).value, s.tasks[s.escalations[k].task].batch)
  {
    var t := s.escalations[k].task;
    var b := s.tasks[t].batch;
    var s1 := s.(tasks := s.tasks[t := s.tasks[t].(state := TaskState.Cancelled)]);
    DismissDrops(s1, k);
    assert !s1.tasks[t].state.Completed?;
    RecomputeValue(Dismissed(s1, k), b, notice);
  }

  lemma CancelEscalatedInv(s: Db, k: Id, notice: Id, now: real)
    requires Inv(s) && k in s.escalations && s.escalations[k].state.Open? && s.escalations[k].task in s.tasks
    requires CancelEscalated(s, k, notice).Ok?
    ensures Inv(CancelEscalated(s, k, notice).value) && Evolves(s, CancelEscalated(s, k, notice).value, now, None, None)
  {
    OpenEscalation(s, k);
    var t := s.escalations[k].task;
    if s.tasks[t].state.Cancelled? {
      DismissCancelledInv(s, k, notice, now);
    } else {
      DismissSuspendedInv(s, k, notice, now);
    }
  }

  lemma DismissSuspendedInv(s: Db, k: Id, notice: Id, now: real)
    requires Inv(s) && k in s.escalations && s.escalations[k].state.Open? && s.escalations[k].task in s.tasks
    requires s.tasks[s.escalations[k].task].state.Suspended? && CancelEscalated(s, k, notice).Ok?
    ensures Inv(CancelEscalated(s, k, notice).value) && Evolves(s, CancelEscalated(s, k, notice).value, now, None, None)
  {
    DismissSuspended(s, k, notice);
    IdleInv(s, CancelEscalated(s, k, notice).value, s.tasks[s.escalations[k].task].batch);
    IdleEvolves(s, CancelEscalated(s, k, notice).value, s.tasks[s.escalations[k].task].batch, now);
  }

  lemma DismissSuspended(s: Db, k: Id, notice: Id)
    requires Fenced(s.tasks, s.attempts, s.leases) && BatchesAgree(s.tasks, s.batches)
    requires k in s.escalations && s.escalations[k].state.Open? && s.escalations[k].task in s.tasks
    requires s.tasks[s.escalations[k].task].state.Suspended? && CancelEscalated(s, k, notice).Ok?
    ensures IdleStopped(s, CancelEscalated(s, k, notice).value, s.tasks[s.escalations[k].task].batch)
  {
    var t := s.escalations[k].task;
    SuspendedBatch(s, t);
    assert TaskFenced(s.tasks[t], s.attempts, t);
    DismissStops(s, k, notice);
  }

  /** The task a resolution sends back to the queue, if any. */
  function Pardoned(s: Db, k: Id, how: Resolution): Option<Id> {
    if how.Retry? && k in s.escalations then Some(s.escalations[k].task) else None
  }

  lemma ResolveInv(s: Db, k: Id, how: Resolution, confirmed: bool, notice: Id, now: real)
    requires Inv(s) && ResolveEscalation(s, k, how, confirmed, notice, now).Ok?
    ensures Inv(ResolveEscalation(s, k, how, confirmed, notice, now).value)
    ensures Evolves(s, ResolveEscalation(s, k, how, confirmed, notice, now).value, now, Pardoned(s, k, how),
                    if how.CancelIt? then None else Some(k))
  {
    match how
    case ReleaseCancelledWriter => ReleaseCancelledInv(s, k, confirmed, notice, now);
    case Retry => RetryTaskInv(s, k, confirmed, notice, now);
    case CancelIt => CancelEscalatedInv(s, k, notice, now);
  }

  lemma ReleaseWriterTasks(s: Db, e: Escalation, confirmed: bool, now: real)
    requires ReleaseWriter(s, e, confirmed, now).Ok?
    ensures ReleaseWriter(s, e, confirmed, now).value.tasks == s.tasks
  {
    var s0 := FinalizeWriter(s, e.task, confirmed);
    assert s0.tasks == s.tasks;
    if !s0.agents[e.agent].state.Retired? {
      ReleaseKeeps(s0, e.agent, now);
    }
  }

  lemma RetryUnheld(s: Db, k: Id, confirmed: bool, notice: Id, now: real, t: Id)
    requires k in s.escalations && s.escalations[k].task in s.tasks
    requires RetryTask(s, k, confirmed, notice, now).Ok? && t in s.tasks && !s.tasks[t].Held()
    ensures var s' := RetryTask(s, k, confirmed, notice, now).value; t in s'.tasks && !s'.tasks[t].Held()
  {
    var e := s.escalations[k];
    var s1 := Requeue(s, e.task);
    var s2 := if e.cause.WriterQuiescenceUnknown? then ReleaseWriter(s1, e, confirmed, now) else Ok(s1);
    if e.cause.WriterQuiescenceUnknown? {
      ReleaseWriterTasks(s1, e, confirmed, now);
    }
    RecomputeKeeps(CloseEscalation(s2.value, k), s.tasks[e.task].batch, notice);
  }

  lemma ReleaseUnheld(s: Db, k: Id, confirmed: bool, notice: Id, now: real, t: Id)
    requires k in s.escalations && s.escalations[k].task in s.tasks
    requires ReleaseCancelled(s, k, confirmed, notice, now).Ok? && t in s.tasks && !s.tasks[t].Held()
    ensures var s' := ReleaseCancelled(s, k, confirmed, notice, now).value; t in s'.tasks && !s'.tasks[t].Held()
  {
    var e := s.escalations[k];
    ReleaseWriterTasks(s, e, confirmed, now);
    RecomputeKeeps(CloseEscalation(ReleaseWriter(s, e, confirmed, now).value, k), s.tasks[e.task].batch, notice);
  }

  lemma DismissUnheld(s: Db, k: Id, notice: Id, t: Id)
    requires k in s.escalations && s.escalations[k].task in s.tasks
    requires CancelEscalated(s, k, notice).Ok? && t in s.tasks && !s.tasks[t].Held()
    ensures var s' := CancelEscalated(s, k, notice).value; t in s'.tasks && !s'.tasks[t].Held()
  {
    var e := s.escalations[k];
    var s1 := s.(tasks := s.tasks[e.task := s.tasks[e.task].(state := TaskState.Cancelled)]);
    RecomputeKeeps(if e.cause.WriterQuiescenceUnknown? then s1
      else CloseEscalation(s1, k), s.tasks[e.task].batch, notice);
  }

  /** No resolution puts a task under a lease. */
  lemma ResolvedUnheld(s: Db, k: Id, how: Resolution, confirmed: bool, notice: Id, now: real, t: Id)
    requires ResolveEscalation(s, k, how, confirmed, notice, now).Ok? && t in s.tasks && !s.tasks[t].Held()
    ensures var s' := ResolveEscalation(s, k, how, confirmed, notice, now).value; t in s'.tasks && !s'.tasks[t].Held()
  {
    match how
    case ReleaseCancelledWriter => ReleaseUnheld(s, k, confirmed, notice, now, t);
    case Retry => RetryUnheld(s, k, confirmed, notice, now, t);
    case CancelIt => DismissUnheld(s, k, notice, t);
  }
}
