/** When Root's resolutions commit and what they do, in terms of the rows. */
module Resolutions {
  import opened Options
  import opened RowOrder
  import opened Tables
  import opened Topology
  import opened Work
  import opened Invariants
  import opened Closing
  import opened ResolveOps
  import opened Failures

  // ---------------------------------------------------------------- the last execution

  /** The execution of the task's newest attempt. */
  ghost predicate LastOf(s: Db, x: Id, t: Id) {
    && x in s.executions && s.executions[x].attempt in s.attempts
    && var a := s.executions[x].attempt;
    && s.attempts[a].task == t
    && forall b | b in s.attempts && s.attempts[b].task == t :: s.attempts[b].number <= s.attempts[a].number
  }

  ghost predicate LastIsolated(s: Db, t: Id) {
    exists x :: LastOf(s, x, t) && s.executions[x].isolated
  }

  lemma LatestNewest(attempts: map<Id, Attempt>, t: Id, b: Id)
    requires b in attempts && attempts[b].task == t
    ensures Latest(attempts, t).Some?
    ensures var a := Latest(attempts, t).value;
      a in attempts && attempts[a].task == t && attempts[b].number <= attempts[a].number
  {
    var all := AttemptsOf(attempts, t);
    assert b in all;
    var rows := NumberRows(attempts, all);
    var a := Least(rows, all);
    assert a != b ==> Before(rows[a], rows[b]);
  }

  lemma LastIs(s: Db, x: Id, t: Id)
    requires Fenced(s.tasks, s.attempts, s.leases) && Physical(s.executions, s.attempts, s.incarnations)
    ensures LastOf(s, x, t) <==> LatestExecution(s, t) == Some(x)
  {
    if LastOf(s, x, t) {
      var a := s.executions[x].attempt;
      LatestNewest(s.attempts, t, a);
      LatestExecutionIs(s, t, a, x);
    } else if LatestExecution(s, t) == Some(x) {
      var a := Latest(s.attempts, t).value;
      assert x in ExecutionsOf(s.executions, a) && a in AttemptsOf(s.attempts, t);
      forall b | b in s.attempts && s.attempts[b].task == t ensures s.attempts[b].number <= s.attempts[a].number {
        LatestNewest(s.attempts, t, b);
      }
    }
  }

  lemma IsolatedIs(s: Db, t: Id)
    requires Fenced(s.tasks, s.attempts, s.leases) && Physical(s.executions, s.attempts, s.incarnations)
    ensures LastIsolated(s, t) <==> FrozenIsolation(s, t)
  {
    if LastIsolated(s, t) {
      var x :| LastOf(s, x, t) && s.executions[x].isolated;
      LastIs(s, x, t);
    } else if FrozenIsolation(s, t) {
      LastIs(s, LatestExecution(s, t).value, t);
    }
  }

  /** Vouched for, the last execution is over, terminal and quiescent; abandoned, an isolated
      one is LOST unless it was over.  Any other keeps its row. */
  function FinishedRow(e: Execution, last: bool, vouched: bool): Execution {
    var over := e.state != ExecutionState.Starting && e.state != ExecutionState.Running
      && e.state != ExecutionState.Unknown;
    if last && vouched
    then e.(state := if over then e.state else ExecutionState.Terminated, terminal := true, quiescent := true)
    else if last && e.isolated && !over then e.(state := ExecutionState.Lost)
    else e
  }

  ghost predicate WriterFinished(s: Db, s': Db, t: Id, vouched: bool) {
    && s'.executions.Keys == s.executions.Keys
    && forall x | x in s.executions :: s'.executions[x] == FinishedRow(s.executions[x], LastOf(s, x, t), vouched)
  }

  lemma FinalizedRow(s: Db, t: Id, vouched: bool, x: Id)
    requires x in s.executions && (LatestExecution(s, t).Some? ==> Latest(s.attempts, t).value in s.attempts)
    ensures x in FinalizeWriter(s, t, vouched).executions
    ensures FinalizeWriter(s, t, vouched).executions[x]
      == FinishedRow(s.executions[x], LatestExecution(s, t) == Some(x), vouched)
  {
  }

  lemma LatestKnown(s: Db, t: Id)
    ensures Latest(s.attempts, t).Some? ==> Latest(s.attempts, t).value in s.attempts
  {
    if Latest(s.attempts, t).Some? {
      assert Latest(s.attempts, t).value in AttemptsOf(s.attempts, t);
    }
  }

  lemma FinalizeFinishes(s: Db, s': Db, t: Id, vouched: bool)
    requires Fenced(s.tasks, s.attempts, s.leases) && Physical(s.executions, s.attempts, s.incarnations)
    requires s'.executions == FinalizeWriter(s, t, vouched).executions
    ensures WriterFinished(s, s', t, vouched)
  {
    FinalizeAlike(s, t, vouched);
    LatestKnown(s, t);
    forall x | x in s.executions
      ensures s'.executions[x] == FinishedRow(s.executions[x], LastOf(s, x, t), vouched) {
      LastIs(s, x, t);
      FinalizedRow(s, t, vouched, x);
    }
  }

  // ---------------------------------------------------------------- the agent

  /** RETIRED if it was told to retire or its home is EPHEMERAL, else REVIVING at home. */
  predicate Revived(agent: Agent, agent': Agent, parts: map<Id, Partition>) {
    && Home(agent) in parts
    && (agent'.state == AgentState.Retired <==> agent.retire || parts[Home(agent)].retention == Ephemeral)
    && (agent'.state != AgentState.Retired ==>
          agent' == agent.(partition := Home(agent), state := AgentState.Reviving, current := None, pending := None,
                           available := None))
  }

  /** A WRITE execution of the agent that may still be writing on another target. */
  predicate Strays(s: Db, x: Id, g: Id, target: Id) {
    && x in s.executions
    && var e := s.executions[x];
    && e.incarnation in s.incarnations && s.incarnations[e.incarnation].agent == g
    && (e.state == ExecutionState.Starting || e.state == ExecutionState.Running || e.state == ExecutionState.Unknown)
    && e.target != target && !e.quiescent && !e.isolated
    && e.task in s.tasks && s.tasks[e.task].mode == Write
  }

  ghost predicate Stranded(s: Db, g: Id, target: Id, t: Id) {
    exists x :: Strays(s, x, g, target) && !LastOf(s, x, t)
  }

  /** Nothing bars the agent from going home. */
  ghost predicate MayGo(s: Db, g: Id, t: Id) {
    && g in s.agents && Home(s.agents[g]) in s.partitions
    && (s.agents[g].retire || !Stranded(s, g, s.partitions[Home(s.agents[g])].target, t))
  }

  lemma ReleaseOk(s: Db, g: Id, now: real)
    requires g in s.agents && ActivePartition(s.partitions, Desired(s.agents[g]))
    ensures ReleaseAgent(s, g, now).Ok? <==>
      || s.agents[g].retire
      || (!HasActiveAttempt(s.attempts, g)
          && !UnsafeElsewhere(s, g, s.partitions[Desired(s.agents[g])].target, now))
  {
    assert Canonical(s.partitions, Desired(s.agents[g])) == Ok(Desired(s.agents[g]));
  }

  /** An agent held for a writer has no ACTIVE attempt. */
  lemma HeldIdle(s: Db, g: Id)
    requires AgentsEngaged(s.tasks, s.attempts, s.agents) && g in s.agents && s.agents[g].state.Suspended?
    ensures !HasActiveAttempt(s.attempts, g)
  {
    assert AgentAssigned(s.tasks, s.attempts, s.agents[g], g);
  }

  /** Whose execution it is, and that its authority is gone. */
  lemma HeldExecution(s: Db, g: Id, x: Id)
    requires Lawful(s) && g in s.agents && s.agents[g].state.Suspended?
    requires x in s.executions && s.executions[x].incarnation in s.incarnations
      && s.incarnations[s.executions[x].incarnation].agent == g
    ensures Abandoned(s, x)
  {
    LawfulIff(s);
    var a := s.executions[x].attempt;
    assert ExecutionPhysical(s.executions[x], s.attempts);
    assert AttemptFenced(s.tasks, s.attempts[a], s.leases[a], a);
    HeldIdle(s, g);
  }

  predicate Abandoned(s: Db, x: Id) {
    && x in s.executions
    && var e := s.executions[x];
    && e.attempt in s.attempts && e.task in s.tasks && !s.attempts[e.attempt].state.Active?
    && e.attempt in s.leases && !s.leases[e.attempt].state.Active?
  }

  /** The tables a resolution asks to release the agent in. */
  ghost predicate Finishes(s: Db, s0: Db, t: Id, vouched: bool) {
    && s0.attempts == s.attempts && s0.leases == s.leases && s0.agents == s.agents && s0.partitions == s.partitions
    && s0.tasks.Keys == s.tasks.Keys && (forall u | u in s.tasks :: s0.tasks[u].mode == s.tasks[u].mode)
    && s0.incarnations.Keys == s.incarnations.Keys
    && (forall i | i in s.incarnations :: s0.incarnations[i].agent == s.incarnations[i].agent)
    && WriterFinished(s, s0, t, vouched)
  }

  /** The last execution of the task does not bar it. */
  ghost predicate LastQuiet(s: Db, x: Id, t: Id, vouched: bool) {
    LastOf(s, x, t) ==>
      && s.executions[x].task == t && t in s.tasks
      && (s.tasks[t].mode == ReadOnly || !FinishedRow(s.executions[x], true, vouched).Unsafe())
  }

  lemma LastOne(s: Db, x: Id, y: Id, t: Id)
    requires Lawful(s) && LastOf(s, x, t) && LastOf(s, y, t)
    ensures x == y && s.executions[x].task == t
  {
    LawfulIff(s);
    LastIs(s, x, t);
    LastIs(s, y, t);
    assert ExecutionPhysical(s.executions[x], s.attempts);
  }

  lemma LastUnsafe(s: Db, x: Id, t: Id, vouched: bool)
    requires Lawful(s) && t in s.tasks && (s.tasks[t].mode == Write ==> vouched || LastIsolated(s, t))
    ensures LastQuiet(s, x, t, vouched)
  {
    if LastOf(s, x, t) {
      LastOne(s, x, x, t);
      if s.tasks[t].mode == Write && !vouched {
        var y :| LastOf(s, y, t) && s.executions[y].isolated;
        LastOne(s, x, y, t);
      }
    }
  }

  lemma StrayRow(s: Db, s0: Db, x: Id, g: Id, target: Id, t: Id, vouched: bool, now: real)
    requires Finishes(s, s0, t, vouched) && Abandoned(s, x) && LastQuiet(s, x, t, vouched)
    requires s.executions[x].incarnation in s.incarnations && s.incarnations[s.executions[x].incarnation].agent == g
    ensures s0.executions[x].Live() && s0.executions[x].target != target && !ClosedSafely(s0, x, now)
      <==> Strays(s, x, g, target) && !LastOf(s, x, t)
  {
    assert s0.executions[x] == FinishedRow(s.executions[x], LastOf(s, x, t), vouched);
  }

  lemma StraysIs(s: Db, s0: Db, x: Id, g: Id, target: Id, t: Id, vouched: bool, now: real)
    requires Lawful(s) && g in s.agents && s.agents[g].state.Suspended? && Finishes(s, s0, t, vouched)
    requires t in s.tasks && (s.tasks[t].mode == Write ==> vouched || LastIsolated(s, t)) && x in s.executions
    requires s.executions[x].incarnation in s.incarnations && s.incarnations[s.executions[x].incarnation].agent == g
    ensures s0.executions[x].Live() && s0.executions[x].target != target && !ClosedSafely(s0, x, now)
      <==> Strays(s, x, g, target) && !LastOf(s, x, t)
  {
    HeldExecution(s, g, x);
    LastUnsafe(s, x, t, vouched);
    StrayRow(s, s0, x, g, target, t, vouched, now);
  }

  lemma StrandedIs(s: Db, s0: Db, g: Id, target: Id, t: Id, vouched: bool, now: real)
    requires Lawful(s) && g in s.agents && s.agents[g].state.Suspended? && Finishes(s, s0, t, vouched)
    requires t in s.tasks && (s.tasks[t].mode == Write ==> vouched || LastIsolated(s, t))
    ensures UnsafeElsewhere(s0, g, target, now) <==> Stranded(s, g, target, t)
  {
    if UnsafeElsewhere(s0, g, target, now) {
      var x :| x in s0.executions && s0.executions[x].incarnation in s0.incarnations
        && s0.incarnations[s0.executions[x].incarnation].agent == g && s0.executions[x].Live()
        && s0.executions[x].target != target && !ClosedSafely(s0, x, now);
      assert s0.executions[x] == FinishedRow(s.executions[x], LastOf(s, x, t), vouched);
      StraysIs(s, s0, x, g, target, t, vouched, now);
    }
    if Stranded(s, g, target, t) {
      var x :| Strays(s, x, g, target) && !LastOf(s, x, t);
      StraysIs(s, s0, x, g, target, t, vouched, now);
      assert s0.executions[x] == FinishedRow(s.executions[x], LastOf(s, x, t), vouched);
    }
  }

  lemma RevivalCommits(s: Db, s0: Db, g: Id, t: Id, vouched: bool, now: real)
    requires Lawful(s) && g in s.agents && s.agents[g].state.Suspended? && Finishes(s, s0, t, vouched)
    requires t in s.tasks && (s.tasks[t].mode == Write ==> vouched || LastIsolated(s, t))
    requires ActivePartition(s.partitions, Home(s.agents[g])) && !HasActiveAttempt(s.attempts, g)
    ensures PrepareRevival(s0, g, now).Ok? <==> MayGo(s, g, t)
  {
    ReleaseOk(s0, g, now);
    StrandedIs(s, s0, g, s.partitions[Home(s.agents[g])].target, t, vouched, now);
  }

  ghost predicate Revives(s: Db, s': Db, g: Id) {
    && g in s.agents && g in s'.agents
    && s' == s.(agents := s.agents[g := s'.agents[g]], incarnations := s'.incarnations)
    && Revived(s.agents[g], s'.agents[g], s.partitions)
  }

  lemma HandedRevives(s: Db, s1: Db, g: Id, now: real)
    requires Hands(s, s1, g, now)
    ensures Revives(s, RevivingRows(s1, g), g)
  {
    if s1.agents[g].state.Ready? {
      var row := s1.agents[g].(state := AgentState.Reviving, available := None);
      assert s1.agents[g := row] == s.agents[g := row];
    }
  }

  lemma RevivalRevives(s: Db, g: Id, now: real)
    requires g in s.agents && !s.agents[g].state.Retired? && ActivePartition(s.partitions, Home(s.agents[g]))
    requires PrepareRevival(s, g, now).Ok?
    ensures Revives(s, PrepareRevival(s, g, now).value, g)
  {
    ReleaseHandsBack(s, g, now);
    HandedRevives(s, ReleaseAgent(s, g, now).value, g, now);
  }

  // ---------------------------------------------------------------- what an open escalation finds

  ghost predicate Opened(s: Db, k: Id) {
    && k in s.escalations
    && var e := s.escalations[k];
    && e.state == EscalationState.Open && e.task in s.tasks && e.agent in s.agents
    && s.tasks[e.task].batch in s.batches
    && (s.tasks[e.task].state == TaskState.Suspended || s.tasks[e.task].state == TaskState.Cancelled)
    && (s.tasks[e.task].state == TaskState.Suspended ==> s.batches[s.tasks[e.task].batch] == BatchState.Suspended)
    && (e.cause == WriterQuiescenceUnknown ==>
          && s.agents[e.agent].state == AgentState.Suspended && ActivePartition(s.partitions, Home(s.agents[e.agent]))
          && !HasActiveAttempt(s.attempts, e.agent))
  }

  lemma OpenFinds(s: Db, k: Id)
    requires Lawful(s) && k in s.escalations && s.escalations[k].state.Open?
    ensures Opened(s, k)
  {
    LawfulIff(s);
    OpenEscalation(s, k);
    var e := s.escalations[k];
    if s.tasks[e.task].state.Suspended? {
      SuspendedBatch(s, e.task);
    }
    if e.cause.WriterQuiescenceUnknown? {
      HeldIdle(s, e.agent);
      assert AgentPlaced(s.agents[e.agent], s.partitions);
    }
  }

  lemma WriterFinishes(s: Db, s0: Db, t: Id, vouched: bool)
    requires Lawful(s) && s0.executions == FinalizeWriter(s, t, vouched).executions
    ensures WriterFinished(s, s0, t, vouched)
  {
    LawfulIff(s);
    FinalizeFinishes(s, s0, t, vouched);
  }

  lemma RowsFinish(s: Db, s1: Db, t: Id, vouched: bool)
    requires Lawful(s) && s1 == s.(tasks := s1.tasks, batches := s1.batches) && s1.tasks.Keys == s.tasks.Keys
    requires forall u | u in s.tasks :: s1.tasks[u].mode == s.tasks[u].mode
    ensures Finishes(s, FinalizeWriter(s1, t, vouched), t, vouched)
  {
    FinalizeAlike(s1, t, vouched);
    FinalizeIgnores(s, s1, t, vouched);
    WriterFinishes(s, FinalizeWriter(s1, t, vouched), t, vouched);
  }

  // ---------------------------------------------------------------- retry

  /** A retry of a SUSPENDED task commits unless a writer is in question: it must then be vouched
      for or isolated, and its agent free to go home. */
  ghost predicate Retriable(s: Db, k: Id, vouched: bool) {
    && k in s.escalations
    && var e := s.escalations[k];
    && e.state == EscalationState.Open && e.task in s.tasks && s.tasks[e.task].state == TaskState.Suspended
    && (e.cause == WriterQuiescenceUnknown ==>
          && (s.tasks[e.task].mode == Write ==> vouched || LastIsolated(s, e.task))
          && MayGo(s, e.agent, e.task))
  }

  lemma IsolatedHere(s: Db, t: Id)
    requires Lawful(s)
    ensures LastIsolated(s, t) <==> FrozenIsolation(s, t)
  {
    LawfulIff(s);
    IsolatedIs(s, t);
  }

  lemma RequeuedFinish(s: Db, k: Id, vouched: bool)
    requires Lawful(s) && Opened(s, k)
    ensures var t := s.escalations[k].task; Finishes(s, FinalizeWriter(Requeue(s, t), t, vouched), t, vouched)
  {
    RowsFinish(s, Requeue(s, s.escalations[k].task), s.escalations[k].task, vouched);
  }

  lemma RetriedRowsOk(s: Db, k: Id, vouched: bool, now: real)
    requires Lawful(s) && Opened(s, k)
    requires var e := s.escalations[k];
      e.cause == WriterQuiescenceUnknown && s.tasks[e.task].mode == Write ==> vouched || LastIsolated(s, e.task)
    ensures var e := s.escalations[k];
      RetriedRows(s, k, vouched, now).Ok? <==> e.cause != WriterQuiescenceUnknown || MayGo(s, e.agent, e.task)
  {
    var e := s.escalations[k];
    if e.cause == WriterQuiescenceUnknown {
      RequeuedFinish(s, k, vouched);
      RevivalCommits(s, FinalizeWriter(Requeue(s, e.task), e.task, vouched), e.agent, e.task, vouched, now);
    }
  }

  /** The requeued task keeps its batch from completing, so nothing is announced. */
  lemma RequeuedRecomputes(s: Db, s2: Db, k: Id, notice: Id)
    requires Opened(s, k) && s2.tasks == Requeue(s, s.escalations[k].task).tasks
      && s2.batches == Requeue(s, s.escalations[k].task).batches
    ensures RecomputeBatch(CloseEscalation(s2, k), s.tasks[s.escalations[k].task].batch, notice).Ok?
  {
    var t := s.escalations[k].task;
    assert s2.tasks[t].batch == s.tasks[t].batch && !s2.tasks[t].state.Completed?;
  }

  lemma RetriedTasks(s: Db, k: Id, vouched: bool, now: real)
    requires Opened(s, k) && RetriedRows(s, k, vouched, now).Ok?
    ensures var s1, s2 := Requeue(s, s.escalations[k].task), RetriedRows(s, k, vouched, now).value;
      s2.tasks == s1.tasks && s2.batches == s1.batches
  {
    var e := s.escalations[k];
    if e.cause == WriterQuiescenceUnknown {
      RevivalRevives(FinalizeWriter(Requeue(s, e.task), e.task, vouched), e.agent, now);
    }
  }

  lemma RetryCommits(s: Db, k: Id, vouched: bool, notice: Id, now: real)
    requires Lawful(s)
    ensures ResolveEscalation(s, k, Retry, vouched, notice, now).Ok? <==> Retriable(s, k, vouched)
  {
    if k in s.escalations && s.escalations[k].state.Open? {
      OpenFinds(s, k);
      IsolatedHere(s, s.escalations[k].task);
      RetryCommitsOpen(s, k, vouched, notice, now);
    }
  }

  lemma RetryCommitsOpen(s: Db, k: Id, vouched: bool, notice: Id, now: real)
    requires Lawful(s) && Opened(s, k)
    requires LastIsolated(s, s.escalations[k].task) <==> FrozenIsolation(s, s.escalations[k].task)
    ensures RetryTask(s, k, vouched, notice, now).Ok? <==> Retriable(s, k, vouched)
  {
    var e := s.escalations[k];
    if e.cause == WriterQuiescenceUnknown && s.tasks[e.task].mode == Write ==> vouched || LastIsolated(s, e.task) {
      RetriedRowsOk(s, k, vouched, now);
      if RetriedRows(s, k, vouched, now).Ok? {
        RetriedTasks(s, k, vouched, now);
        RequeuedRecomputes(s, RetriedRows(s, k, vouched, now).value, k, notice);
      }
    }
  }

  /** The task is QUEUED and due, the escalation RESOLVED, and a writer's agent and execution
      are released. */
  ghost predicate RetryDone(s: Db, s': Db, k: Id, vouched: bool) {
    && Opened(s, k)
    && var e := s.escalations[k];
    && s'.tasks == s.tasks[e.task := s.tasks[e.task].(state := TaskState.Queued, nextEligible := None)]
    && s'.escalations == s.escalations[k := e.(state := EscalationState.Resolved)]
    && s'.attempts == s.attempts && s'.leases == s.leases
    && WriterReleased(s, s', e, vouched)
  }

  ghost predicate WriterReleased(s: Db, s': Db, e: Escalation, vouched: bool) {
    if e.cause == WriterQuiescenceUnknown
    then && e.agent in s.agents && e.agent in s'.agents
         && s'.agents == s.agents[e.agent := s'.agents[e.agent]]
         && Revived(s.agents[e.agent], s'.agents[e.agent], s.partitions)
         && WriterFinished(s, s', e.task, vouched)
    else s'.agents == s.agents && s'.executions == s.executions
  }

  lemma RevivesReleases(s: Db, s0: Db, s': Db, e: Escalation, vouched: bool)
    requires Finishes(s, s0, e.task, vouched) && Revives(s0, s', e.agent) && e.cause == WriterQuiescenceUnknown
    ensures WriterReleased(s, s', e, vouched)
  {
    assert WriterFinished(s, s', e.task, vouched);
  }

  lemma WriterReleases(s: Db, s1: Db, e: Escalation, vouched: bool, now: real)
    requires e.cause == WriterQuiescenceUnknown && Finishes(s, FinalizeWriter(s1, e.task, vouched), e.task, vouched)
    requires e.agent in s.agents && s.agents[e.agent].state == AgentState.Suspended
      && ActivePartition(s.partitions, Home(s.agents[e.agent])) && ReleaseWriter(s1, e, vouched, now).Ok?
    ensures var s2 := ReleaseWriter(s1, e, vouched, now).value;
      && WriterReleased(s, s2, e, vouched)
      && s2 == s1.(agents := s2.agents, incarnations := s2.incarnations, executions := s2.executions)
  {
    var s0 := FinalizeWriter(s1, e.task, vouched);
    RevivalRevives(s0, e.agent, now);
    RevivesReleases(s, s0, PrepareRevival(s0, e.agent, now).value, e, vouched);
    FinalizeAlike(s1, e.task, vouched);
  }

  lemma RetriedReleases(s: Db, k: Id, vouched: bool, now: real)
    requires Lawful(s) && Opened(s, k) && RetriedRows(s, k, vouched, now).Ok?
    ensures var s2 := RetriedRows(s, k, vouched, now).value;
      && WriterReleased(s, s2, s.escalations[k], vouched) && s2.tasks == Requeue(s, s.escalations[k].task).tasks
      && s2.attempts == s.attempts && s2.leases == s.leases && s2.escalations == s.escalations
  {
    var e := s.escalations[k];
    if e.cause == WriterQuiescenceUnknown {
      RequeuedFinish(s, k, vouched);
      WriterReleases(s, Requeue(s, e.task), e, vouched, now);
    }
  }

  lemma RetryResolves(s: Db, k: Id, vouched: bool, notice: Id, now: real)
    requires Lawful(s) && ResolveEscalation(s, k, Retry, vouched, notice, now).Ok?
    ensures RetryDone(s, ResolveEscalation(s, k, Retry, vouched, notice, now).value, k, vouched)
  {
    OpenFinds(s, k);
    RetryValue(s, k, vouched, notice, now);
    RetriedReleases(s, k, vouched, now);
    RecomputeKeeps(CloseEscalation(RetriedRows(s, k, vouched, now).value, k), s.tasks[s.escalations[k].task].batch,
                   notice);
  }

  /** When a retry commits, and what it does. */
  lemma RetryExactly(s: Db, k: Id, vouched: bool, notice: Id, now: real)
    requires Inv(s)
    ensures var r := ResolveEscalation(s, k, Retry, vouched, notice, now);
      && (r.Ok? <==> Retriable(s, k, vouched)) && (r.Ok? ==> RetryDone(s, r.value, k, vouched))
  {
    LawfulIff(s);
    RetryCommits(s, k, vouched, notice, now);
    if ResolveEscalation(s, k, Retry, vouched, notice, now).Ok? {
      RetryResolves(s, k, vouched, notice, now);
    }
  }

  // ---------------------------------------------------------------- the writer of a cancelled task

  /** A cancelled task's writer is released when it is vouched for or isolated and its agent free to go. */
  ghost predicate Releasable(s: Db, k: Id, vouched: bool) {
    && k in s.escalations
    && var e := s.escalations[k];
    && e.state == EscalationState.Open && e.cause == WriterQuiescenceUnknown && e.task in s.tasks
    && s.tasks[e.task].state == TaskState.Cancelled && (vouched || LastIsolated(s, e.task))
    && MayGo(s, e.agent, e.task)
  }

  /** Only the escalation and the writer's rows change. */
  ghost predicate ReleaseDone(s: Db, s': Db, k: Id, vouched: bool) {
    && Opened(s, k)
    && s'.tasks == s.tasks && s'.attempts == s.attempts && s'.leases == s.leases && s'.batches == s.batches
    && s'.escalations == s.escalations[k := s.escalations[k].(state := EscalationState.Resolved)]
    && WriterReleased(s, s', s.escalations[k], vouched)
  }

  lemma BatchSettled(s: Db, k: Id)
    requires Lawful(s) && Opened(s, k)
    ensures var b := s.tasks[s.escalations[k].task].batch;
      s.batches[b].Cancelled? || s.batches[b] == BatchNext(s.tasks, b)
  {
    LawfulIff(s);
    var b := s.tasks[s.escalations[k].task].batch;
    assert BatchAgrees(s.tasks, b, s.batches[b]);
  }

  lemma ReleaseWriterOk(s: Db, k: Id, vouched: bool, now: real)
    requires Lawful(s) && Opened(s, k) && s.escalations[k].cause == WriterQuiescenceUnknown
    requires vouched || LastIsolated(s, s.escalations[k].task)
    ensures ReleaseWriter(s, s.escalations[k], vouched, now).Ok? <==>
      MayGo(s, s.escalations[k].agent, s.escalations[k].task)
  {
    var e := s.escalations[k];
    RowsFinish(s, s, e.task, vouched);
    RevivalCommits(s, FinalizeWriter(s, e.task, vouched), e.agent, e.task, vouched, now);
  }

  lemma ReleaseResolves(s: Db, k: Id, vouched: bool, notice: Id, now: real)
    requires Lawful(s) && Opened(s, k) && s.escalations[k].cause == WriterQuiescenceUnknown
    requires ReleaseWriter(s, s.escalations[k], vouched, now).Ok?
    ensures var s' := CloseEscalation(ReleaseWriter(s, s.escalations[k], vouched, now).value, k);
      && RecomputeBatch(s', s.tasks[s.escalations[k].task].batch, notice) == Ok(s') && ReleaseDone(s, s', k, vouched)
  {
    var e := s.escalations[k];
    RowsFinish(s, s, e.task, vouched);
    WriterReleases(s, s, e, vouched, now);
    BatchSettled(s, k);
    SettledRecompute(CloseEscalation(ReleaseWriter(s, e, vouched, now).value, k), s.tasks[e.task].batch, notice);
  }

  lemma ReleaseCommits(s: Db, k: Id, vouched: bool, notice: Id, now: real)
    requires Lawful(s)
    ensures var r := ResolveEscalation(s, k, ReleaseCancelledWriter, vouched, notice, now);
      && (r.Ok? <==> Releasable(s, k, vouched)) && (r.Ok? ==> ReleaseDone(s, r.value, k, vouched))
  {
    if k in s.escalations && s.escalations[k].state.Open? {
      OpenFinds(s, k);
      IsolatedHere(s, s.escalations[k].task);
      ReleaseCommitsOpen(s, k, vouched, notice, now);
    }
  }

  lemma ReleaseCommitsOpen(s: Db, k: Id, vouched: bool, notice: Id, now: real)
    requires Lawful(s) && Opened(s, k)
    requires LastIsolated(s, s.escalations[k].task) <==> FrozenIsolation(s, s.escalations[k].task)
    ensures var r := ReleaseCancelled(s, k, vouched, notice, now);
      && (r.Ok? <==> Releasable(s, k, vouched)) && (r.Ok? ==> ReleaseDone(s, r.value, k, vouched))
  {
    var e := s.escalations[k];
    if s.tasks[e.task].state == TaskState.Cancelled && e.cause == WriterQuiescenceUnknown
      && (vouched || LastIsolated(s, e.task)) {
      ReleaseWriterOk(s, k, vouched, now);
      if ReleaseWriter(s, e, vouched, now).Ok? {
        ReleaseResolves(s, k, vouched, notice, now);
      }
    }
  }

  /** When releasing a cancelled writer commits, and what it does. */
  lemma ReleaseExactly(s: Db, k: Id, vouched: bool, notice: Id, now: real)
    requires Inv(s)
    ensures var r := ResolveEscalation(s, k, ReleaseCancelledWriter, vouched, notice, now);
      && (r.Ok? <==> Releasable(s, k, vouched)) && (r.Ok? ==> ReleaseDone(s, r.value, k, vouched))
  {
    LawfulIff(s);
    ReleaseCommits(s, k, vouched, notice, now);
  }

  // ---------------------------------------------------------------- cancelling

  /** The task is CANCELLED; its escalation is closed exactly when no writer is in question. */
  ghost predicate DismissDone(s: Db, s': Db, k: Id) {
    && Opened(s, k)
    && var e := s.escalations[k];
    && s'.tasks == s.tasks[e.task := s.tasks[e.task].(state := TaskState.Cancelled)]
    && s'.escalations == (if e.cause == WriterQuiescenceUnknown then s.escalations
                          else s.escalations[k := e.(state := EscalationState.Resolved)])
    && s'.attempts == s.attempts && s'.leases == s.leases && s'.agents == s.agents && s'.executions == s.executions
  }

  lemma DismissCommitsOpen(s: Db, k: Id, notice: Id)
    requires Opened(s, k)
    ensures CancelEscalated(s, k, notice).Ok? && DismissDone(s, CancelEscalated(s, k, notice).value, k)
  {
    var e := s.escalations[k];
    var s1 := s.(tasks := s.tasks[e.task := s.tasks[e.task].(state := TaskState.Cancelled)]);
    assert SomeStopped(s1.tasks, s.tasks[e.task].batch) by {
      assert s1.tasks[e.task].state.Cancelled? && s1.tasks[e.task].batch == s.tasks[e.task].batch;
    }
    RecomputeKeeps(if e.cause.WriterQuiescenceUnknown? then s1 else CloseEscalation(s1, k), s.tasks[e.task].batch,
                   notice);
  }

  lemma DismissCommits(s: Db, k: Id, vouched: bool, notice: Id, now: real)
    requires Lawful(s)
    ensures var r := ResolveEscalation(s, k, CancelIt, vouched, notice, now);
      && (r.Ok? <==> k in s.escalations && s.escalations[k].state == EscalationState.Open)
      && (r.Ok? ==> DismissDone(s, r.value, k))
  {
    if k in s.escalations && s.escalations[k].state.Open? {
      OpenFinds(s, k);
      DismissCommitsOpen(s, k, notice);
    }
  }

  /** Cancelling an open escalation always commits. */
  lemma DismissExactly(s: Db, k: Id, vouched: bool, notice: Id, now: real)
    requires Inv(s)
    ensures var r := ResolveEscalation(s, k, CancelIt, vouched, notice, now);
      && (r.Ok? <==> k in s.escalations && s.escalations[k].state == EscalationState.Open)
      && (r.Ok? ==> DismissDone(s, r.value, k))
  {
    LawfulIff(s);
    DismissCommits(s, k, vouched, notice, now);
  }

  // ---------------------------------------------------------------- any resolution

  ghost predicate Resolvable(s: Db, k: Id, how: Resolution, vouched: bool) {
    match how
    case Retry => Retriable(s, k, vouched)
    case ReleaseCancelledWriter => Releasable(s, k, vouched)
    case CancelIt => k in s.escalations && s.escalations[k].state == EscalationState.Open
  }

  ghost predicate ResolveDone(s: Db, s': Db, k: Id, how: Resolution, vouched: bool) {
    match how
    case Retry => RetryDone(s, s', k, vouched)
    case ReleaseCancelledWriter => ReleaseDone(s, s', k, vouched)
    case CancelIt => DismissDone(s, s', k)
  }

  lemma ResolveExactly(s: Db, k: Id, how: Resolution, vouched: bool, notice: Id, now: real)
    requires Lawful(s)
    ensures var r := ResolveEscalation(s, k, how, vouched, notice, now);
      (r.Ok? <==> Resolvable(s, k, how, vouched)) && (r.Ok? ==> ResolveDone(s, r.value, k, how, vouched))
  {
    match how
    case Retry =>
      RetryCommits(s, k, vouched, notice, now);
      if ResolveEscalation(s, k, Retry, vouched, notice, now).Ok? {
        RetryResolves(s, k, vouched, notice, now);
      }
    case ReleaseCancelledWriter => ReleaseCommits(s, k, vouched, notice, now);
    case CancelIt => DismissCommits(s, k, vouched, notice, now);
  }
}
