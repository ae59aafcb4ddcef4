/** Cancelling tasks and batches keeps the whole invariant. */
module CancelOps {
  import opened Options
  import opened RowOrder
  import opened Tables
  import opened Topology
  import opened Work
  import opened Invariants
  import opened TopologyProofs
  import opened QuietOps
  import opened Closing
  import opened Settlement
  import opened History

  // ---------------------------------------------------------------- tasks nobody holds

  /** Some idle tasks of one batch became CANCELLED. */
  ghost predicate IdleCancelled(tasks: map<Id, Task>, tasks': map<Id, Task>, b: Id) {
    tasks'.Keys == tasks.Keys && forall t | t in tasks :: IdleRow(tasks[t], tasks'[t], b)
  }

  predicate IdleRow(task: Task, task': Task, b: Id) {
    || task' == task
    || (task.batch == b && task.current.None? && !task.Terminal() && task' == task.(state := TaskState.Cancelled))
  }

  /** Open decisions other than writer safety were closed together with their tasks. */
  ghost predicate Dropped(escalations: map<Id, Escalation>, escalations': map<Id, Escalation>, tasks': map<Id, Task>) {
    && escalations'.Keys == escalations.Keys
    && forall k | k in escalations :: EscalationDropped(escalations[k], escalations'[k], tasks')
  }

  predicate EscalationDropped(e: Escalation, e': Escalation, tasks': map<Id, Task>) {
    || e' == e
    || (&& e.state.Open? && !e.cause.WriterQuiescenceUnknown? && !e'.state.Open? && e' == e.(state := e'.state)
        && e.task in tasks' && tasks'[e.task].state.Cancelled?)
  }

  lemma IdleFenced(tasks: map<Id, Task>, tasks': map<Id, Task>, b: Id, attempts: map<Id, Attempt>,
                   leases: map<Id, Lease>, agents: map<Id, Agent>)
    requires IdleCancelled(tasks, tasks', b)
    requires Fenced(tasks, attempts, leases) && EpochsCount(tasks, attempts) && AgentsEngaged(tasks, attempts, agents)
    ensures Fenced(tasks', attempts, leases) && EpochsCount(tasks', attempts) && AgentsEngaged(tasks', attempts, agents)
  {
    forall a | a in attempts ensures AttemptFenced(tasks', attempts[a], leases[a], a) {
      assert AttemptFenced(tasks, attempts[a], leases[a], a);
      assert IdleRow(tasks[attempts[a].task], tasks'[attempts[a].task], b);
    }
    forall t | t in tasks' ensures TaskFenced(tasks'[t], attempts, t) && tasks'[t].epoch == tasks[t].epoch {
      assert TaskFenced(tasks[t], attempts, t) && IdleRow(tasks[t], tasks'[t], b);
    }
    forall g | g in agents ensures AgentAssigned(tasks', attempts, agents[g], g) {
      assert AgentAssigned(tasks, attempts, agents[g], g);
      assert agents[g].current.Some? ==> IdleRow(tasks[agents[g].current.value], tasks'[agents[g].current.value], b);
    }
  }

  lemma IdleHomes(tasks: map<Id, Task>, tasks': map<Id, Task>, b: Id, agents: map<Id, Agent>)
    requires IdleCancelled(tasks, tasks', b) && Homes(tasks, agents)
    ensures Homes(tasks', agents)
  {
    forall t | t in tasks ensures tasks'[t].partition == tasks[t].partition {
      assert IdleRow(tasks[t], tasks'[t], b);
    }
  }

  lemma DroppedHold(escalations: map<Id, Escalation>, escalations': map<Id, Escalation>, tasks': map<Id, Task>)
    requires Dropped(escalations, escalations', tasks')
    ensures forall k | k in escalations :: escalations[k].Hold() ==> escalations'[k] == escalations[k]
    ensures forall k | k in escalations :: escalations'[k].Hold() ==> escalations'[k] == escalations[k]
    ensures forall k | k in escalations :: escalations'[k].state.Open? ==> escalations'[k] == escalations[k]
  {
    forall k | k in escalations ensures EscalationDropped(escalations[k], escalations'[k], tasks') {
    }
  }

  lemma IdleWriters(tasks: map<Id, Task>, tasks': map<Id, Task>, b: Id, attempts: map<Id, Attempt>,
                    executions: map<Id, Execution>,
                    escalations: map<Id, Escalation>, escalations': map<Id, Escalation>)
    requires IdleCancelled(tasks, tasks', b) && Dropped(escalations, escalations', tasks')
    requires WritersHeld(tasks, attempts, executions, escalations)
    ensures WritersHeld(tasks', attempts, executions, escalations')
  {
    DroppedHold(escalations, escalations', tasks');
    forall x | x in executions ensures WriterHeld(tasks', attempts, executions[x], escalations') {
      var e := executions[x];
      assert WriterHeld(tasks, attempts, e, escalations);
      if e.task in tasks {
        assert IdleRow(tasks[e.task], tasks'[e.task], b);
        if HasHold(escalations, e.task) {
          HoldsStay(escalations, escalations', e.task);
        }
      }
    }
  }

  lemma IdleOpen(tasks: map<Id, Task>, tasks': map<Id, Task>, b: Id, escalations: map<Id, Escalation>,
                 escalations': map<Id, Escalation>, t: Id)
    requires IdleCancelled(tasks, tasks', b) && Dropped(escalations, escalations', tasks')
    requires t in tasks' && tasks'[t].state.Suspended? && HasOpen(escalations, t)
    ensures HasOpen(escalations', t)
  {
    var k :| k in escalations && escalations[k].task == t && escalations[k].state.Open?;
    assert EscalationDropped(escalations[k], escalations'[k], tasks');
    assert escalations'[k].task == t && escalations'[k].state.Open?;
  }

  lemma IdleEscalated(tasks: map<Id, Task>, tasks': map<Id, Task>, b: Id, agents: map<Id, Agent>,
                      escalations: map<Id, Escalation>, escalations': map<Id, Escalation>)
    requires IdleCancelled(tasks, tasks', b) && Dropped(escalations, escalations', tasks')
      && Escalated(tasks, agents, escalations)
    ensures Escalated(tasks', agents, escalations')
  {
    DroppedHold(escalations, escalations', tasks');
    forall k | k in escalations' ensures EscalationSound(tasks', agents, escalations'[k]) {
      assert EscalationSound(tasks, agents, escalations[k])
        && EscalationDropped(escalations[k], escalations'[k], tasks');
      assert IdleRow(tasks[escalations[k].task], tasks'[escalations[k].task], b);
    }
    forall t | t in tasks' && tasks'[t].state.Suspended? ensures HasOpen(escalations', t) {
      assert IdleRow(tasks[t], tasks'[t], b);
      IdleOpen(tasks, tasks', b, escalations, escalations', t);
    }
    forall g | g in agents && agents[g].state.Suspended? ensures HoldOn(escalations', g) {
      var k :| k in escalations && escalations[k].agent == g && escalations[k].Hold();
      assert escalations'[k].agent == g && escalations'[k].Hold();
    }
  }

  lemma IdleTasks(tasks: map<Id, Task>, tasks': map<Id, Task>, b: Id, parts: map<Id, Partition>,
                  results: map<Id, Result>)
    requires IdleCancelled(tasks, tasks', b) && DepsSettled(tasks) && DepsOrdered(tasks) && TasksPlaced(tasks, parts)
      && ResultsMatch(tasks, results)
    ensures DepsSettled(tasks') && DepsOrdered(tasks') && TasksPlaced(tasks', parts) && ResultsMatch(tasks', results)
  {
    forall t | t in tasks
      ensures IdleRow(tasks[t], tasks'[t], b) && (tasks'[t].state.Completed? <==> tasks[t].state.Completed?) {
    }
    forall t | t in tasks' ensures TaskDeps(tasks', tasks'[t]) {
      assert TaskDeps(tasks, tasks[t]) && IdleRow(tasks[t], tasks'[t], b);
      if tasks'[t].state.Blocked? {
        var d :| d in tasks[t].deps && d in tasks && !tasks[d].state.Completed?;
        assert d in tasks' && !tasks'[d].state.Completed?;
      }
    }
    SameDepsOrdered(tasks, tasks');
    forall t | t in tasks' && tasks'[t].state.Completed? ensures exists r :: r in results && results[r].task == t {
      assert tasks[t].state.Completed?;
    }
  }

  lemma IdleTouched(tasks: map<Id, Task>, tasks': map<Id, Task>, b: Id)
    requires IdleCancelled(tasks, tasks', b)
    ensures BatchTouched(tasks, tasks', b) && (AllCompleted(tasks, b) ==> tasks' == tasks)
      && (AllCompleted(tasks', b) ==> AllCompleted(tasks, b))
  {
    forall t | t in tasks ensures IdleRow(tasks[t], tasks'[t], b) {
    }
  }

  lemma IdleBatches(tasks: map<Id, Task>, tasks': map<Id, Task>, b: Id, batches: map<Id, BatchState>,
                    outbox: map<Id, Event>)
    requires IdleCancelled(tasks, tasks', b) && b in batches && BatchesAgree(tasks, batches)
      && NoticesMatch(tasks, batches, outbox)
    ensures BatchesAgree(tasks', batches[b := BatchNext(tasks', b)])
      && NoticesMatch(tasks', batches[b := BatchNext(tasks', b)], outbox)
  {
    IdleTouched(tasks, tasks', b);
    RecomputedBatches(tasks, tasks', batches, b);
    if !AllCompleted(tasks, b) {
      RecomputedNotices(tasks, tasks', batches, outbox, b, 0);
    }
  }

  ghost predicate IdleStopped(s: Db, s': Db, b: Id) {
    && s' == s.(tasks := s'.tasks, escalations := s'.escalations, batches := s'.batches)
    && IdleCancelled(s.tasks, s'.tasks, b) && Dropped(s.escalations, s'.escalations, s'.tasks)
    && b in s.batches && s'.batches == s.batches[b := BatchNext(s'.tasks, b)]
  }

  /** Cancelling tasks that no attempt holds. */
  lemma IdleInv(s: Db, s': Db, b: Id)
    requires Inv(s) && IdleStopped(s, s', b)
    ensures Inv(s')
  {
    IdleFenced(s.tasks, s'.tasks, b, s.attempts, s.leases, s.agents);
    IdleHomes(s.tasks, s'.tasks, b, s.agents);
    IdleWriters(s.tasks, s'.tasks, b, s.attempts, s.executions, s.escalations, s'.escalations);
    IdleEscalated(s.tasks, s'.tasks, b, s.agents, s.escalations, s'.escalations);
    IdleTasks(s.tasks, s'.tasks, b, s.partitions, s.results);
    IdleBatches(s.tasks, s'.tasks, b, s.batches, s.outbox);
  }

  lemma IdleEvolves(s: Db, s': Db, b: Id, now: real)
    requires IdleStopped(s, s', b)
    ensures Evolves(s, s', now, None, None)
  {
    forall t | t in s.tasks ensures TaskEvolves(s.tasks[t], s'.tasks[t], false) {
      assert IdleRow(s.tasks[t], s'.tasks[t], b);
    }
    DroppedHold(s.escalations, s'.escalations, s'.tasks);
  }

  // ---------------------------------------------------------------- a task somebody holds

  /** The row of a task whose cancellation is complete. */
  function CancelRow(tasks: map<Id, Task>, t: Id): map<Id, Task>
    requires t in tasks
  {
    tasks[t := tasks[t].(state := TaskState.Cancelled, current := None)]
  }

  ghost predicate HeldStopped(s: Db, s1: Db, s': Db, a: Id) {
    && a in s.attempts && s.attempts[a].task in s.tasks && s.tasks[s.attempts[a].task].batch in s.batches
    && var t := s.attempts[a].task;
    var b := s.tasks[t].batch;
    && s' == s1.(tasks := CancelRow(s.tasks, t), batches := s.batches[b := BatchNext(CancelRow(s.tasks, t), b)])
  }

  lemma CloseValue(s: Db, a: Id, attempt: AttemptState, lease: LeaseState)
    requires a in s.attempts && s.attempts[a].state.Active? && a in s.leases && s.leases[a].state.Active?
      && !attempt.Active? && !lease.Active?
    ensures var s1 := CloseAttempt(s, a, attempt, lease);
      && AttemptClosed(s.attempts, s1.attempts, a) && LeaseClosed(s.leases, s1.leases, a)
      && s1 == s.(attempts := s1.attempts, leases := s1.leases)
  {
  }

  /** The closing rows as a cancellation writes them. */
  lemma CancelledRowsClose(s: Db, a: Id, x: Option<Id>, confirmed: bool)
    requires a in s.attempts && s.attempts[a].state.Active? && a in s.leases && s.leases[a].state.Active?
    ensures var s1 := CancelledRows(s, a, x, confirmed);
      && AttemptClosed(s.attempts, s1.attempts, a) && LeaseClosed(s.leases, s1.leases, a)
        && IncsKept(s.incarnations, s1.incarnations)
      && s1 == s.(attempts := s1.attempts, leases := s1.leases, incarnations := s1.incarnations)
  {
    var quiet := x.None? || KnownQuiet(s, x, confirmed);
    var seen := if quiet then ExecutionState.Terminated else ExecutionState.Lost;
    PresenceKept(s.incarnations, s.attempts[a].incarnation, seen, quiet, quiet, false);
    CloseValue(s.(incarnations := Presence(s.incarnations, s.attempts[a].incarnation, seen, quiet, quiet, false)),
               a, AttemptState.Cancelled, LeaseState.Revoked);
  }

  lemma FreedStops(s: Db, s0: Db, s1: Db, s': Db, a: Id)
    requires Closable(s, a) && AttemptClosed(s.attempts, s0.attempts, a) && LeaseClosed(s.leases, s0.leases, a)
    requires IncsKept(s.incarnations, s0.incarnations)
      && s0 == s.(attempts := s0.attempts, leases := s0.leases, incarnations := s0.incarnations)
    requires Frees(s0, s1, s.attempts[a].agent) && HeldStopped(s, s1, s', a)
    ensures Closes(s, s', a) && s'.escalations == s.escalations && s'.outbox == s.outbox && s'.results == s.results
    ensures !s'.agents[s.attempts[a].agent].state.Suspended?
  {
  }

  lemma FreedStopEnds(s: Db, s': Db, a: Id)
    requires Inv(s) && Closes(s, s', a) && s'.escalations == s.escalations && s'.outbox == s.outbox
      && s'.results == s.results
    requires !s'.agents[s.attempts[a].agent].state.Suspended?
    requires s'.tasks == CancelRow(s.tasks, s.attempts[a].task)
    requires s.tasks[s.attempts[a].task].batch in s.batches
    requires s'.batches
      == s.batches[s.tasks[s.attempts[a].task].batch := BatchNext(s'.tasks, s.tasks[s.attempts[a].task].batch)]
    ensures WellEnded(s, s', a)
  {
    ActiveAttempt(s, a);
    var t, g := s.attempts[a].task, s.attempts[a].agent;
    ClosedEscalated(s.tasks, s'.tasks, s.agents, s'.agents, s.escalations, t, g);
    ClosedDeps(s.tasks, s'.tasks, t);
    ClosedResults(s.tasks, s'.tasks, s.results, t);
    StoppedBatch(s.tasks, s'.tasks, s.batches, s.outbox, t);
  }

  lemma FreedStopSettled(s: Db, s1: Db, s': Db, a: Id)
    requires Closes(s, s', a) && s'.escalations == s.escalations && s'.outbox == s.outbox && s'.results == s.results
    requires s.tasks[s.attempts[a].task].Held() && HeldStopped(s, s1, s', a)
    ensures Settled(s, s', a)
  {
  }

  lemma FreedStopInv(s: Db, s0: Db, s1: Db, s': Db, a: Id)
    requires Inv(s) && Closable(s, a) && AttemptClosed(s.attempts, s0.attempts, a)
      && LeaseClosed(s.leases, s0.leases, a)
    requires IncsKept(s.incarnations, s0.incarnations)
      && s0 == s.(attempts := s0.attempts, leases := s0.leases, incarnations := s0.incarnations)
    requires Frees(s0, s1, s.attempts[a].agent) && HeldStopped(s, s1, s', a)
    ensures Inv(s') && Settled(s, s', a)
  {
    FreedStops(s, s0, s1, s', a);
    FreedStopSettled(s, s1, s', a);
    FreedStopEnds(s, s', a);
    ClosesInv(s, s', a);
  }

  lemma RaisedStops(s: Db, s0: Db, s': Db, a: Id, drawn: Drawn)
    requires Suspendable(s, a) && AttemptClosed(s.attempts, s0.attempts, a) && LeaseClosed(s.leases, s0.leases, a)
    requires IncsKept(s.incarnations, s0.incarnations)
      && s0 == s.(attempts := s0.attempts, leases := s0.leases, incarnations := s0.incarnations)
    requires var r := CreateEscalation(s0.(agents := SuspendAgent(s0.agents, s.attempts[a].agent)), s.attempts[a].task,
                                       s.attempts[a].agent, WriterQuiescenceUnknown, drawn);
      r.Ok? && HeldStopped(s, r.value, s', a)
    ensures SuspendShaped(s, s, s', a, WriterQuiescenceUnknown, drawn.escalation, drawn.decision)
  {
    SuspendFrees(s.agents, s.partitions, s.attempts[a].agent);
  }

  lemma MarkedSelf(s: Db, a: Id)
    ensures Marked(s, s, a)
  {
  }

  lemma RaisedStopInv(s: Db, s0: Db, s': Db, a: Id, drawn: Drawn)
    requires Inv(s) && Suspendable(s, a) && AttemptClosed(s.attempts, s0.attempts, a)
      && LeaseClosed(s.leases, s0.leases, a)
    requires IncsKept(s.incarnations, s0.incarnations)
      && s0 == s.(attempts := s0.attempts, leases := s0.leases, incarnations := s0.incarnations)
    requires var r := CreateEscalation(s0.(agents := SuspendAgent(s0.agents, s.attempts[a].agent)), s.attempts[a].task,
                                       s.attempts[a].agent, WriterQuiescenceUnknown, drawn);
      r.Ok? && HeldStopped(s, r.value, s', a)
    ensures Inv(s') && Settled(s, s', a)
  {
    RaisedStops(s, s0, s', a, drawn);
    MarkedSelf(s, a);
    ShapedInv(s, s, s', a, WriterQuiescenceUnknown, drawn.escalation, drawn.decision);
  }

  /** Cancelling a held task: close, dispose of the agent, and only then write the task row. */
  lemma HeldInv(s: Db, a: Id, confirmed: bool, drawn: Drawn, now: real, s': Db)
    requires Inv(s) && a in s.attempts && s.attempts[a].state.Active? && s.attempts[a].task in s.tasks
    requires CancelAttempt(s, a, confirmed, drawn, now).Ok?
      && HeldStopped(s, CancelAttempt(s, a, confirmed, drawn, now).value, s', a)
    ensures Inv(s') && Settled(s, s', a)
  {
    InvSuspendable(s, a);
    var x := ExecutionOf(s.executions, a);
    CancelledRowsClose(s, a, x, confirmed);
    DisposeInv(s, CancelledRows(s, a, x, confirmed), a,
               WriterSafe(s, s.attempts[a].task, x, KnownQuiet(s, x, confirmed)), drawn, now, s');
  }

  lemma DisposeInv(s: Db, s0: Db, a: Id, safe: bool, drawn: Drawn, now: real, s': Db)
    requires Inv(s) && Suspendable(s, a) && AttemptClosed(s.attempts, s0.attempts, a)
      && LeaseClosed(s.leases, s0.leases, a)
    requires IncsKept(s.incarnations, s0.incarnations)
      && s0 == s.(attempts := s0.attempts, leases := s0.leases, incarnations := s0.incarnations)
    requires DisposeAgent(s0, a, safe, drawn, now).Ok?
      && HeldStopped(s, DisposeAgent(s0, a, safe, drawn, now).value, s', a)
    ensures Inv(s') && Settled(s, s', a)
  {
    if safe {
      ReleaseFrees(s0, s.attempts[a].agent, now);
      FreedStopInv(s, s0, ReleaseAgent(s0, s.attempts[a].agent, now).value, s', a);
    } else {
      RaisedStopInv(s, s0, s', a, drawn);
    }
  }

  // ---------------------------------------------------------------- cancel_task

  lemma ReleaseKeeps(s: Db, g: Id, now: real)
    requires ReleaseAgent(s, g, now).Ok?
    ensures var s' := ReleaseAgent(s, g, now).value; s' == s.(agents := s'.agents, incarnations := s'.incarnations)
  {
    if !s.agents[g].retire {
      CommitValue(s, g, Desired(s.agents[g]), now);
      IdleKeeps(CommitCutover(s, g, Desired(s.agents[g]), now).value, g, now);
    }
  }

  lemma IdleKeeps(s: Db, g: Id, now: real)
    requires g in s.agents && s.agents[g].partition in s.partitions
    ensures var s' := IdleRows(s, g, now); s' == s.(agents := s'.agents, incarnations := s'.incarnations)
  {
    if s.partitions[s.agents[g].partition].retention.Ephemeral? {
      assert IdleRows(s, g, now) == RetireAgent(s, g);
    } else {
      assert IdleRows(s, g, now) == s.(agents := IdleRows(s, g, now).agents);
    }
  }

  lemma DisposeKeeps(s: Db, a: Id, safe: bool, drawn: Drawn, now: real)
    requires a in s.attempts && DisposeAgent(s, a, safe, drawn, now).Ok?
    ensures var s' := DisposeAgent(s, a, safe, drawn, now).value;
      s' == s.(agents := s'.agents, incarnations := s'.incarnations, escalations := s'.escalations, outbox := s'.outbox)
  {
    if safe {
      ReleaseKeeps(s, s.attempts[a].agent, now);
    }
  }

  /** Until the end a cancellation leaves task and batch rows alone, and executions altogether. */
  lemma CancelKeeps(s: Db, a: Id, confirmed: bool, drawn: Drawn, now: real)
    requires a in s.attempts && s.attempts[a].task in s.tasks && CancelAttempt(s, a, confirmed, drawn, now).Ok?
    ensures var s' := CancelAttempt(s, a, confirmed, drawn, now).value;
      && s'.tasks == s.tasks && s'.batches == s.batches && s'.partitions == s.partitions && s'.revision == s.revision
      && s'.executions == s.executions
  {
    var x := ExecutionOf(s.executions, a);
    DisposeKeeps(CancelledRows(s, a, x, confirmed), a,
                 WriterSafe(s, s.attempts[a].task, x, KnownQuiet(s, x, confirmed)), drawn, now);
  }

  lemma StopValue(s: Db, t: Id, b: Id, notice: Id)
    requires t in s.tasks && s.tasks[t].batch == b && b in s.batches && !s.batches[b].Cancelled?
      && !s.batches[b].Completed?
    requires RecomputeBatch(SetTask(s, t, TaskState.Cancelled, s.tasks[t].nextEligible), b, notice).Ok?
    ensures RecomputeBatch(SetTask(s, t, TaskState.Cancelled, s.tasks[t].nextEligible), b, notice).value
      == s.(tasks := CancelRow(s.tasks, t), batches := s.batches[b := BatchNext(CancelRow(s.tasks, t), b)])
  {
    RecomputeValue(SetTask(s, t, TaskState.Cancelled, s.tasks[t].nextEligible), b, notice);
    assert !CancelRow(s.tasks, t)[t].state.Completed?;
  }

  lemma IdleTaskStops(s: Db, t: Id)
    requires t in s.tasks && !s.tasks[t].Terminal() && s.tasks[t].current.None? && s.tasks[t].batch in s.batches
    ensures IdleStopped(s,
                        s.(tasks := CancelRow(s.tasks, t),
                           batches := s.batches[s.tasks[t].batch := BatchNext(CancelRow(s.tasks, t),
                             s.tasks[t].batch)]), s.tasks[t].batch)
  {
  }

  lemma CancelTaskValue(s: Db, t: Id, confirmed: bool, drawn: Drawn, now: real)
    requires t in s.tasks && !s.tasks[t].Terminal() && CancelTask(s, t, confirmed, drawn, now).Ok?
    ensures s.tasks[t].current.None? ==>
      CancelTask(s, t, confirmed, drawn, now)
      == RecomputeBatch(SetTask(s, t, TaskState.Cancelled, s.tasks[t].nextEligible), s.tasks[t].batch, drawn.notice)
    ensures s.tasks[t].current.Some? ==>
      && s.tasks[t].current.value in s.attempts && s.attempts[s.tasks[t].current.value].task in s.tasks
      && CancelAttempt(s, s.tasks[t].current.value, confirmed, drawn, now).Ok?
      && CancelTask(s, t, confirmed, drawn, now)
         == RecomputeBatch(SetTask(CancelAttempt(s, s.tasks[t].current.value, confirmed, drawn, now).value, t,
                                   TaskState.Cancelled, s.tasks[t].nextEligible),
                           s.tasks[t].batch, drawn.notice)
  {
  }

  lemma CancelTaskInv(s: Db, t: Id, confirmed: bool, drawn: Drawn, now: real)
    requires Inv(s) && CancelTask(s, t, confirmed, drawn, now).Ok?
    ensures Inv(CancelTask(s, t, confirmed, drawn, now).value)
      && Evolves(s, CancelTask(s, t, confirmed, drawn, now).value, now, None, None)
  {
    if s.tasks[t].Terminal() {
      EvolvesSelf(s, now, None, None);
    } else {
      CancelLiveInv(s, t, confirmed, drawn, now);
    }
  }

  lemma CancelLiveInv(s: Db, t: Id, confirmed: bool, drawn: Drawn, now: real)
    requires Inv(s) && CancelTask(s, t, confirmed, drawn, now).Ok? && !s.tasks[t].Terminal()
    ensures Inv(CancelTask(s, t, confirmed, drawn, now).value)
      && Evolves(s, CancelTask(s, t, confirmed, drawn, now).value, now, None, None)
  {
    HeldBatch(s, t);
    CancelTaskValue(s, t, confirmed, drawn, now);
    var b := s.tasks[t].batch;
    if s.tasks[t].current.None? {
      StopValue(s, t, b, drawn.notice);
      IdleTaskStops(s, t);
      IdleInv(s, CancelTask(s, t, confirmed, drawn, now).value, b);
      IdleEvolves(s, CancelTask(s, t, confirmed, drawn, now).value, b, now);
    } else {
      var a := s.tasks[t].current.value;
      assert TaskFenced(s.tasks[t], s.attempts, t);
      CancelKeeps(s, a, confirmed, drawn, now);
      StopValue(CancelAttempt(s, a, confirmed, drawn, now).value, t, b, drawn.notice);
      HeldInv(s, a, confirmed, drawn, now, CancelTask(s, t, confirmed, drawn, now).value);
      SettledEvolves(s, CancelTask(s, t, confirmed, drawn, now).value, a, now);
    }
  }

  // ---------------------------------------------------------------- cancel_batch

  /** The same tables with other task and batch rows. */
  function Over(s: Db, tasks: map<Id, Task>, batches: map<Id, BatchState>): Db {
    s.(tasks := tasks, batches := batches)
  }

  lemma FreesOver(s: Db, s': Db, tasks: map<Id, Task>, batches: map<Id, BatchState>, g: Id)
    requires Frees(s, s', g)
    ensures Frees(Over(s, tasks, batches), Over(s', tasks, batches), g)
  {
  }

  lemma EscalationOver(s: Db, tasks: map<Id, Task>, batches: map<Id, BatchState>, t: Id, g: Id, cause: FailureClass,
                       drawn: Drawn)
    requires t in s.tasks && t in tasks && tasks[t].batch == s.tasks[t].batch
      && CreateEscalation(s, t, g, cause, drawn).Ok?
    ensures CreateEscalation(Over(s, tasks, batches), t, g, cause, drawn)
      == Ok(Over(CreateEscalation(s, t, g, cause, drawn).value, tasks, batches))
  {
  }

  /** The tables as they would be had the task row been cancelled with its attempt. */
  function Ahead(m: Db, c1: Db, t: Id): Db
    requires t in m.tasks
  {
    var b := m.tasks[t].batch;
    Over(c1, CancelRow(m.tasks, t), m.batches[b := BatchNext(CancelRow(m.tasks, t), b)])
  }

  /** Closing an attempt while its task row is still unwritten: `m` is the state with the
      rows of earlier attempts already cancelled, `tasks` and `batches` what is in the tables. */
  lemma StepInv(m: Db, tasks: map<Id, Task>, batches: map<Id, BatchState>, a: Id, drawn: Drawn, now: real)
    requires Inv(m) && a in m.attempts && m.attempts[a].state.Active? && m.attempts[a].task in m.tasks
    requires m.attempts[a].task in tasks && tasks[m.attempts[a].task].batch == m.tasks[m.attempts[a].task].batch
    requires CancelAttempt(Over(m, tasks, batches), a, false, drawn, now).Ok?
    ensures var m' := Ahead(m, CancelAttempt(Over(m, tasks, batches), a, false, drawn, now).value, m.attempts[a].task);
      Inv(m') && Settled(m, m', a)
  {
    InvSuspendable(m, a);
    var c := Over(m, tasks, batches);
    var x := ExecutionOf(c.executions, a);
    CancelledRowsClose(c, a, x, false);
    StepDispose(m, tasks, batches, CancelledRows(c, a, x, false), a,
                WriterSafe(c, c.attempts[a].task, x, KnownQuiet(c, x, false)), drawn, now);
  }

  lemma StepDispose(m: Db, tasks: map<Id, Task>, batches: map<Id, BatchState>, c0: Db, a: Id, safe: bool,
                    drawn: Drawn, now: real)
    requires Inv(m) && Suspendable(m, a)
    requires m.attempts[a].task in tasks && tasks[m.attempts[a].task].batch == m.tasks[m.attempts[a].task].batch
    requires AttemptClosed(m.attempts, c0.attempts, a) && LeaseClosed(m.leases, c0.leases, a)
      && IncsKept(m.incarnations, c0.incarnations)
    requires c0 == Over(m, tasks, batches).(attempts := c0.attempts, leases := c0.leases,
                                            incarnations := c0.incarnations)
    requires DisposeAgent(c0, a, safe, drawn, now).Ok?
    ensures var m' := Ahead(m, DisposeAgent(c0, a, safe, drawn, now).value, m.attempts[a].task);
      Inv(m') && Settled(m, m', a)
  {
    var t, g := m.attempts[a].task, m.attempts[a].agent;
    var m0 := Over(c0, m.tasks, m.batches);
    assert m0 == m.(attempts := c0.attempts, leases := c0.leases, incarnations := c0.incarnations);
    var c1 := DisposeAgent(c0, a, safe, drawn, now).value;
    if safe {
      ReleaseFrees(c0, g, now);
      FreesOver(c0, c1, m.tasks, m.batches, g);
      FreedStopInv(m, m0, Over(c1, m.tasks, m.batches), Ahead(m, c1, t), a);
    } else {
      EscalationOver(c0.(agents := SuspendAgent(c0.agents, g)), m.tasks, m.batches, t, g, WriterQuiescenceUnknown,
                     drawn);
      RaisedStopInv(m, m0, Ahead(m, c1, t), a, drawn);
    }
  }

  /** Rows of the batch are as they were, or already cancelled. */
  ghost predicate Partly(tasks: map<Id, Task>, tasks': map<Id, Task>, b: Id) {
    tasks'.Keys == tasks.Keys && forall t | t in tasks :: PartlyRow(tasks[t], tasks'[t], b)
  }

  predicate PartlyRow(task: Task, task': Task, b: Id) {
    || task' == task
    || (task.batch == b && !task.Terminal() && task' == task.(state := TaskState.Cancelled, current := None))
  }

  /** Whatever of the batch is not terminal is held by an attempt. */
  ghost predicate NoneIdle(tasks: map<Id, Task>, b: Id) {
    forall t | t in tasks && tasks[t].batch == b && !tasks[t].Terminal() :: tasks[t].Held()
  }

  /** At most one batch row changed. */
  predicate OneBatch(batches: map<Id, BatchState>, batches': map<Id, BatchState>, b: Id) {
    batches'.Keys == batches.Keys && forall c | c in batches && c != b :: batches'[c] == batches[c]
  }

  /** The ACTIVE attempts left are earlier ones outside the list. */
  ghost predicate Left(m: Db, m': Db, b: Id, list: seq<Id>) {
    && OneBatch(m.batches, m'.batches, b)
    && forall a | a in m'.attempts && m'.attempts[a].state.Active? ::
      a in m.attempts && m.attempts[a].state.Active? && m'.attempts[a].task == m.attempts[a].task && a !in list
  }

  lemma CancelRowPartly(tasks: map<Id, Task>, tasks1: map<Id, Task>, t: Id, b: Id)
    requires Partly(tasks, tasks1, b) && NoneIdle(tasks1, b) && t in tasks1 && tasks1[t].batch == b && tasks1[t].Held()
    ensures Partly(tasks, CancelRow(tasks1, t), b) && NoneIdle(CancelRow(tasks1, t), b)
  {
    forall u | u in tasks ensures PartlyRow(tasks[u], CancelRow(tasks1, t)[u], b) {
      assert PartlyRow(tasks[u], tasks1[u], b);
    }
  }

  /** What holds before and after each attempt of the loop. */
  ghost predicate Cancelling(m: Db, tasks: map<Id, Task>, b: Id) {
    Lawful(m) && Partly(tasks, m.tasks, b) && NoneIdle(m.tasks, b) && b in m.batches
  }

  lemma AheadPartly(m: Db, tasks: map<Id, Task>, b: Id, t: Id, c1: Db)
    requires Partly(tasks, m.tasks, b) && NoneIdle(m.tasks, b) && b in m.batches
    requires t in m.tasks && m.tasks[t].batch == b && m.tasks[t].Held()
    ensures var m1 := Ahead(m, c1, t);
      Partly(tasks, m1.tasks, b) && NoneIdle(m1.tasks, b) && b in m1.batches && OneBatch(m.batches, m1.batches, b)
  {
    CancelRowPartly(tasks, m.tasks, t, b);
  }

  lemma StepCancelling(m: Db, tasks: map<Id, Task>, batches: map<Id, BatchState>, b: Id, a: Id, drawn: Drawn, now: real)
    requires Cancelling(m, tasks, b) && a in m.attempts && m.attempts[a].state.Active?
    requires m.attempts[a].task in m.tasks && m.tasks[m.attempts[a].task].batch == b
    requires CancelAttempt(Over(m, tasks, batches), a, false, drawn, now).Ok?
    ensures var m1 := Ahead(m, CancelAttempt(Over(m, tasks, batches), a, false, drawn, now).value, m.attempts[a].task);
      Cancelling(m1, tasks, b) && Settled(m, m1, a) && OneBatch(m.batches, m1.batches, b)
  {
    var t := m.attempts[a].task;
    ActiveAttempt(m, a);
    assert PartlyRow(tasks[t], m.tasks[t], b);
    StepInv(m, tasks, batches, a, drawn, now);
    AheadPartly(m, tasks, b, t, CancelAttempt(Over(m, tasks, batches), a, false, drawn, now).value);
  }

  lemma CancelStep(s: Db, list: seq<Id>, k: nat, draw: nat -> Drawn, now: real)
    requires list != [] && CancelEach(s, list, k, draw, now).Ok?
    ensures list[0] in s.attempts && s.attempts[list[0]].task in s.tasks
      && CancelAttempt(s, list[0], false, draw(k), now).Ok?
    ensures CancelEach(s, list, k, draw, now)
      == CancelEach(CancelAttempt(s, list[0], false, draw(k), now).value, list[1..], k + 1, draw, now)
  {
  }

  ghost predicate ListedIn(m: Db, list: seq<Id>, b: Id) {
    forall a | a in list ::
      a in m.attempts && m.attempts[a].state.Active? && m.attempts[a].task in m.tasks
        && m.tasks[m.attempts[a].task].batch == b
  }

  lemma StillListed(m: Db, m1: Db, tasks: map<Id, Task>, list: seq<Id>, b: Id)
    requires list != [] && ListedIn(m, list, b) && Distinct(list) && AttemptClosed(m.attempts, m1.attempts, list[0])
    requires Partly(tasks, m.tasks, b) && Partly(tasks, m1.tasks, b)
    ensures ListedIn(m1, list[1..], b) && Distinct(list[1..])
  {
    forall a | a in list[1..]
      ensures a in m1.attempts && m1.attempts[a].state.Active? && m1.attempts[a].task in m1.tasks
      && m1.tasks[m1.attempts[a].task].batch == b {
      var i :| 0 <= i < |list[1..]| && list[1..][i] == a;
      assert list[0] != list[i + 1];
      assert list[i + 1] in list;
      var t := m.attempts[a].task;
      assert PartlyRow(tasks[t], m.tasks[t], b) && PartlyRow(tasks[t], m1.tasks[t], b);
    }
  }

  /** The loop's first step, with the task row cancelled at once. */
  function AheadOne(m: Db, tasks: map<Id, Task>, batches: map<Id, BatchState>, a: Id, drawn: Drawn, now: real): Db
    requires a in m.attempts && m.attempts[a].task in m.tasks && m.attempts[a].task in tasks
    requires CancelAttempt(Over(m, tasks, batches), a, false, drawn, now).Ok?
  {
    Ahead(m, CancelAttempt(Over(m, tasks, batches), a, false, drawn, now).value, m.attempts[a].task)
  }

  lemma FirstOver(m: Db, tasks: map<Id, Task>, batches: map<Id, BatchState>, list: seq<Id>, k: nat,
                  draw: nat -> Drawn, now: real)
    requires list != [] && list[0] in m.attempts && m.attempts[list[0]].task in m.tasks
    requires CancelEach(Over(m, tasks, batches), list, k, draw, now).Ok?
    ensures m.attempts[list[0]].task in tasks
      && CancelAttempt(Over(m, tasks, batches), list[0], false, draw(k), now).Ok?
    ensures CancelEach(Over(m, tasks, batches), list, k, draw, now)
      == CancelEach(Over(AheadOne(m, tasks, batches, list[0], draw(k), now), tasks, batches), list[1..], k + 1, draw,
                    now)
  {
    var a, c := list[0], Over(m, tasks, batches);
    CancelStep(c, list, k, draw, now);
    CancelKeeps(c, a, false, draw(k), now);
    assert CancelAttempt(c, a, false, draw(k), now).value
      == Over(AheadOne(m, tasks, batches, a, draw(k), now), tasks, batches);
  }

  /** All that the loop needs to know of one step. */
  ghost predicate Stepped(m: Db, m1: Db, tasks: map<Id, Task>, b: Id, a: Id, now: real) {
    Cancelling(m1, tasks, b) && AttemptClosed(m.attempts, m1.attempts, a) && Evolves(m, m1, now, None, None)
      && OneBatch(m.batches, m1.batches, b)
  }

  lemma FirstCancelled(m: Db, tasks: map<Id, Task>, batches: map<Id, BatchState>, b: Id, a: Id, drawn: Drawn, now: real)
    requires Cancelling(m, tasks, b) && a in m.attempts && m.attempts[a].state.Active?
    requires m.attempts[a].task in m.tasks && m.tasks[m.attempts[a].task].batch == b && m.attempts[a].task in tasks
    requires CancelAttempt(Over(m, tasks, batches), a, false, drawn, now).Ok?
    ensures Stepped(m, AheadOne(m, tasks, batches, a, drawn, now), tasks, b, a, now)
  {
    StepCancelling(m, tasks, batches, b, a, drawn, now);
    SettledEvolves(m, AheadOne(m, tasks, batches, a, drawn, now), a, now);
  }

  lemma CancelFirst(m: Db, tasks: map<Id, Task>, batches: map<Id, BatchState>, b: Id, list: seq<Id>,
                    k: nat, draw: nat -> Drawn, now: real) returns (m1: Db)
    requires Cancelling(m, tasks, b) && ListedIn(m, list, b) && Distinct(list) && list != []
    requires CancelEach(Over(m, tasks, batches), list, k, draw, now).Ok?
    ensures Stepped(m, m1, tasks, b, list[0], now) && ListedIn(m1, list[1..], b) && Distinct(list[1..])
    ensures CancelEach(Over(m, tasks, batches), list, k, draw, now)
      == CancelEach(Over(m1, tasks, batches), list[1..], k + 1, draw, now)
  {
    assert list[0] in list;
    FirstOver(m, tasks, batches, list, k, draw, now);
    FirstCancelled(m, tasks, batches, b, list[0], draw(k), now);
    m1 := AheadOne(m, tasks, batches, list[0], draw(k), now);
    StillListed(m, m1, tasks, list, b);
  }

  lemma {:induction false} CancelEachInv(m: Db, tasks: map<Id, Task>, batches: map<Id, BatchState>, b: Id,
                                         list: seq<Id>,
                                         k: nat, draw: nat -> Drawn, now: real) returns (m': Db)
    requires Cancelling(m, tasks, b) && ListedIn(m, list, b) && Distinct(list)
    requires CancelEach(Over(m, tasks, batches), list, k, draw, now).Ok?
    ensures Cancelling(m', tasks, b) && Left(m, m', b, list) && Evolves(m, m', now, None, None)
    ensures CancelEach(Over(m, tasks, batches), list, k, draw, now).value == Over(m', tasks, batches)
    decreases |list|
  {
    if list == [] {
      m' := m;
      EvolvesSelf(m, now, None, None);
    } else {
      var m1 := CancelFirst(m, tasks, batches, b, list, k, draw, now);
      m' := CancelEachInv(m1, tasks, batches, b, list[1..], k + 1, draw, now);
      LeftStep(m, m1, m', b, list);
      EvolvesTrans(m, m1, m', now);
    }
  }

  lemma LeftStep(m: Db, m1: Db, m': Db, b: Id, list: seq<Id>)
    requires list != [] && AttemptClosed(m.attempts, m1.attempts, list[0]) && OneBatch(m.batches, m1.batches, b)
    requires Left(m1, m', b, list[1..])
    ensures Left(m, m', b, list)
  {
  }

  // Before the loop: idle tasks and their decisions are gone.

  function StopIdle(tasks: map<Id, Task>, b: Id): map<Id, Task> {
    map t | t in tasks ::
      if tasks[t].batch == b && !tasks[t].Terminal()
        && tasks[t].current.None? then tasks[t].(state := TaskState.Cancelled) else tasks[t]
  }

  function Started(s: Db, b: Id): Db {
    s.(escalations := CancelOthers(s.escalations, b), tasks := StopIdle(s.tasks, b),
       batches := s.batches[b := BatchNext(StopIdle(s.tasks, b), b)])
  }

  lemma OthersDropped(s: Db, b: Id)
    requires Escalated(s.tasks, s.agents, s.escalations) && Fenced(s.tasks, s.attempts, s.leases)
    ensures Dropped(s.escalations, CancelOthers(s.escalations, b), StopIdle(s.tasks, b))
  {
    forall k | k in s.escalations
      ensures EscalationDropped(s.escalations[k], CancelOthers(s.escalations, b)[k], StopIdle(s.tasks, b)) {
      assert EscalationSound(s.tasks, s.agents, s.escalations[k]);
      assert TaskFenced(s.tasks[s.escalations[k].task], s.attempts, s.escalations[k].task);
    }
  }

  lemma StartedPartly(s: Db, b: Id)
    requires Fenced(s.tasks, s.attempts, s.leases)
    ensures IdleCancelled(s.tasks, StopIdle(s.tasks, b), b) && Partly(s.tasks, StopIdle(s.tasks, b), b)
      && NoneIdle(StopIdle(s.tasks, b), b)
  {
    forall t | t in s.tasks ensures TaskFenced(s.tasks[t], s.attempts, t) {
    }
  }

  lemma StartedCancelling(s: Db, b: Id)
    requires Inv(s) && b in s.batches
    ensures Cancelling(Started(s, b), s.tasks, b) && IdleStopped(s, Started(s, b), b)
  {
    OthersDropped(s, b);
    StartedPartly(s, b);
    IdleInv(s, Started(s, b), b);
  }

  function ActiveSet(s: Db, b: Id): set<Id> {
    set a | a in s.attempts && ActiveIn(s, a, b)
  }

  lemma StartedListed(s: Db, b: Id)
    ensures ListedIn(Started(s, b), ById(ActiveSet(s, b)), b) && Distinct(ById(ActiveSet(s, b)))
  {
    ListingDistinct(ByIdRows(ActiveSet(s, b)));
  }

  // After the loop: everything is terminal.

  /** A task of the batch still at work would have an attempt the loop left out. */
  lemma NoneHeld(s: Db, m: Db, b: Id, t: Id)
    requires Fenced(m.tasks, m.attempts, m.leases) && Partly(s.tasks, m.tasks, b) && NoneIdle(m.tasks, b)
    requires Left(Started(s, b), m, b, ById(ActiveSet(s, b)))
    requires t in m.tasks && m.tasks[t].batch == b
    ensures m.tasks[t].Terminal()
  {
    assert TaskFenced(m.tasks[t], m.attempts, t) && PartlyRow(s.tasks[t], m.tasks[t], b);
    if !m.tasks[t].Terminal() {
      assert m.tasks[t].Held();
      var a := m.tasks[t].current.value;
      assert ActiveIn(s, a, b);
    }
  }

  lemma AllStopped(s: Db, m: Db, b: Id)
    requires Cancelling(m, s.tasks, b) && Left(Started(s, b), m, b, ById(ActiveSet(s, b)))
    ensures forall t | t in m.tasks && m.tasks[t].batch == b :: m.tasks[t].Terminal()
  {
    LawfulIff(m);
    forall t | t in m.tasks && m.tasks[t].batch == b ensures m.tasks[t].Terminal() {
      NoneHeld(s, m, b, t);
    }
  }

  lemma AllPartly(tasks: map<Id, Task>, tasks': map<Id, Task>, b: Id)
    requires Partly(tasks, tasks', b) && forall t | t in tasks' && tasks'[t].batch == b :: tasks'[t].Terminal()
    ensures tasks' == CancelTasks(tasks, b)
  {
    forall t | t in tasks ensures tasks'[t] == CancelTasks(tasks, b)[t] {
      assert PartlyRow(tasks[t], tasks'[t], b);
    }
  }

  lemma StoppedInv(m: Db, b: Id)
    requires Inv(m) && b in m.batches && forall t | t in m.tasks && m.tasks[t].batch == b :: m.tasks[t].Terminal()
    ensures Inv(m.(batches := m.batches[b := BatchState.Cancelled]))
  {
    StoppedAgree(m.tasks, m.batches, m.outbox, b);
  }

  lemma StoppedAgree(tasks: map<Id, Task>, batches: map<Id, BatchState>, outbox: map<Id, Event>, b: Id)
    requires BatchesAgree(tasks, batches) && NoticesMatch(tasks, batches, outbox) && b in batches
    requires forall t | t in tasks && tasks[t].batch == b :: tasks[t].Terminal()
    ensures BatchesAgree(tasks, batches[b := BatchState.Cancelled])
      && NoticesMatch(tasks, batches[b := BatchState.Cancelled], outbox)
  {
    forall c | c in batches ensures BatchAgrees(tasks, c, batches[b := BatchState.Cancelled][c]) {
      assert BatchAgrees(tasks, c, batches[c]);
    }
  }

  lemma CancelBatchValue(s: Db, b: Id, draw: nat -> Drawn, now: real)
    requires b in s.batches && !s.batches[b].Cancelled? && CancelBatch(s, b, draw, now).Ok?
    ensures var r := CancelEach(Over(Started(s, b), s.tasks, s.batches), ById(ActiveSet(s, b)), 0, draw, now);
      && r.Ok?
      && CancelBatch(s, b, draw, now).value
        == r.value.(tasks := CancelTasks(r.value.tasks, b), batches := r.value.batches[b := BatchState.Cancelled])
  {
    assert Over(Started(s, b), s.tasks, s.batches) == s.(escalations := CancelOthers(s.escalations, b));
  }

  lemma CancelLiveBatchInv(s: Db, b: Id, draw: nat -> Drawn, now: real)
    requires Inv(s) && b in s.batches && !s.batches[b].Cancelled? && CancelBatch(s, b, draw, now).Ok?
    ensures Inv(CancelBatch(s, b, draw, now).value) && Evolves(s, CancelBatch(s, b, draw, now).value, now, None, None)
  {
    CancelBatchValue(s, b, draw, now);
    StartedCancelling(s, b);
    StartedListed(s, b);
    var m := CancelEachInv(Started(s, b), s.tasks, s.batches, b, ById(ActiveSet(s, b)), 0, draw, now);
    AllStopped(s, m, b);
    StoppedInv(m, b);
    CancelledFinal(s, m, b);
    CancelledEvolves(s, m, b, now);
  }

  lemma CancelledEvolves(s: Db, m: Db, b: Id, now: real)
    requires IdleStopped(s, Started(s, b), b) && Evolves(Started(s, b), m, now, None, None)
    ensures Evolves(s, m.(batches := m.batches[b := BatchState.Cancelled]), now, None, None)
  {
    IdleEvolves(s, Started(s, b), b, now);
    EvolvesTrans(s, Started(s, b), m, now);
  }

  lemma CancelledFinal(s: Db, m: Db, b: Id)
    requires b in s.batches && Partly(s.tasks, m.tasks, b) && OneBatch(Started(s, b).batches, m.batches, b)
    requires forall t | t in m.tasks && m.tasks[t].batch == b :: m.tasks[t].Terminal()
    ensures m.(batches := m.batches[b := BatchState.Cancelled])
      == Over(m, s.tasks, s.batches).(tasks := CancelTasks(s.tasks, b), batches := s.batches[b := BatchState.Cancelled])
  {
    AllPartly(s.tasks, m.tasks, b);
    assert m.batches[b := BatchState.Cancelled] == s.batches[b := BatchState.Cancelled];
  }

  lemma CancelBatchInv(s: Db, b: Id, draw: nat -> Drawn, now: real)
    requires Inv(s) && CancelBatch(s, b, draw, now).Ok?
    ensures Inv(CancelBatch(s, b, draw, now).value) && Evolves(s, CancelBatch(s, b, draw, now).value, now, None, None)
  {
    if s.batches[b].Cancelled? {
      EvolvesSelf(s, now, None, None);
    } else {
      CancelLiveBatchInv(s, b, draw, now);
    }
  }
}
