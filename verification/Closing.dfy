/** What every settlement does to the tables: one ACTIVE attempt is closed, its task
    leaves LEASED or RUNNING, and its agent is no longer engaged. */
module Closing {
  import opened Options
  import opened RowOrder
  import opened Tables
  import opened Work
  import opened Invariants
  import opened TopologyProofs

  ghost predicate AttemptClosed(attempts: map<Id, Attempt>, attempts': map<Id, Attempt>, a: Id) {
    && a in attempts && a in attempts' && attempts[a].state.Active? && !attempts'[a].state.Active?
    && attempts' == attempts[a := attempts[a].(state := attempts'[a].state)]
  }

  ghost predicate LeaseClosed(leases: map<Id, Lease>, leases': map<Id, Lease>, a: Id) {
    && a in leases && a in leases' && leases[a].state.Active? && !leases'[a].state.Active?
    && leases' == leases[a := leases[a].(state := leases'[a].state)]
  }

  predicate RowClosed(task: Task, task': Task) {
    && task' == task.(state := task'.state, current := None, nextEligible := task'.nextEligible)
    && (task'.state.RetryWait? || task'.state.Suspended? || task'.state.Completed? || task'.state.Cancelled?)
  }

  /** Other tasks stay, or a BLOCKED one becomes QUEUED. */
  predicate RowBeside(task: Task, task': Task) {
    task' == task || (task.state.Blocked? && task' == task.(state := TaskState.Queued))
  }

  ghost predicate TaskClosed(tasks: map<Id, Task>, tasks': map<Id, Task>, t: Id) {
    && t in tasks && tasks'.Keys == tasks.Keys && RowClosed(tasks[t], tasks'[t])
    && forall u | u in tasks && u != t :: RowBeside(tasks[u], tasks'[u])
  }

  predicate Disengaged(row: Agent) {
    row.current.None? && !Engaged(row)
  }

  ghost predicate AgentFreed(agents: map<Id, Agent>, agents': map<Id, Agent>, g: Id) {
    && g in agents && g in agents' && Disengaged(agents'[g])
    && agents' == agents[g := agents'[g]]
  }

  /** Executions of other attempts only get safer; the closed attempt's row is rewritten. */
  ghost predicate ExecutionsSettled(executions: map<Id, Execution>, executions': map<Id, Execution>, a: Id) {
    && executions'.Keys == executions.Keys
    && forall x | x in executions :: ExecutionSettled(executions[x], executions'[x], a)
  }

  predicate ExecutionSettled(e: Execution, e': Execution, a: Id) {
    && e'.task == e.task && e'.attempt == e.attempt && e'.incarnation == e.incarnation && e'.isolated == e.isolated
    && (e'.Live() ==> e.Live()) && (e.attempt != a && e.quiescent ==> e'.quiescent)
  }

  // ---------------------------------------------------------------- authority

  lemma ClosedFenced(tasks: map<Id, Task>, tasks': map<Id, Task>, attempts: map<Id, Attempt>,
                     attempts': map<Id, Attempt>,
                     leases: map<Id, Lease>, leases': map<Id, Lease>, a: Id)
    requires AttemptClosed(attempts, attempts', a) && LeaseClosed(leases, leases', a)
    requires TaskClosed(tasks, tasks', attempts[a].task) && Fenced(tasks, attempts, leases)
    ensures Fenced(tasks', attempts', leases')
  {
    var t := attempts[a].task;
    assert AttemptFenced(tasks, attempts[a], leases[a], a);
    forall b | b in attempts' ensures AttemptFenced(tasks', attempts'[b], leases'[b], b) {
      assert AttemptFenced(tasks, attempts[b], leases[b], b);
      assert attempts[b].task != t ==> RowBeside(tasks[attempts[b].task], tasks'[attempts[b].task]);
    }
    forall u | u in tasks' ensures TaskFenced(tasks'[u], attempts', u) {
      assert TaskFenced(tasks[u], attempts, u);
      assert u != t ==> RowBeside(tasks[u], tasks'[u]);
    }
  }

  lemma ClosedEpochs(tasks: map<Id, Task>, tasks': map<Id, Task>, attempts: map<Id, Attempt>,
                     attempts': map<Id, Attempt>, a: Id)
    requires AttemptClosed(attempts, attempts', a) && TaskClosed(tasks, tasks', attempts[a].task)
      && EpochsCount(tasks, attempts)
    ensures EpochsCount(tasks', attempts')
  {
    forall t | t in tasks' ensures |AttemptsOf(attempts', t)| == tasks'[t].epoch {
      assert AttemptsOf(attempts', t) == AttemptsOf(attempts, t);
      assert t != attempts[a].task ==> RowBeside(tasks[t], tasks'[t]);
    }
  }

  lemma ClosedEngaged(tasks: map<Id, Task>, tasks': map<Id, Task>, attempts: map<Id, Attempt>,
                      attempts': map<Id, Attempt>,
                      leases: map<Id, Lease>, agents: map<Id, Agent>, agents': map<Id, Agent>, a: Id)
    requires AttemptClosed(attempts, attempts', a) && TaskClosed(tasks, tasks', attempts[a].task)
    requires AgentFreed(agents, agents', attempts[a].agent)
    requires Fenced(tasks, attempts, leases) && AgentsEngaged(tasks, attempts, agents)
    ensures AgentsEngaged(tasks', attempts', agents')
  {
    var t, g := attempts[a].task, attempts[a].agent;
    assert AttemptFenced(tasks, attempts[a], leases[a], a);
    forall b | b in attempts' ensures attempts'[b].agent in agents'
      && (attempts'[b].state.Active? ==> agents'[attempts'[b].agent].current == Some(attempts'[b].task)) {
      assert AttemptFenced(tasks, attempts[b], leases[b], b);
    }
    forall h | h in agents' ensures AgentAssigned(tasks', attempts', agents'[h], h) {
      assert AgentAssigned(tasks, attempts, agents[h], h);
      if h != g && agents[h].current.Some? {
        var u := agents[h].current.value;
        assert u != t;
        assert RowBeside(tasks[u], tasks'[u]);
        assert TaskFenced(tasks[u], attempts, u);
      }
    }
  }

  lemma ClosedHomes(tasks: map<Id, Task>, tasks': map<Id, Task>, agents: map<Id, Agent>, agents': map<Id, Agent>,
                    t: Id, g: Id)
    requires TaskClosed(tasks, tasks', t) && AgentFreed(agents, agents', g) && Homes(tasks, agents)
    ensures Homes(tasks', agents')
  {
    forall u | u in tasks ensures tasks'[u].partition == tasks[u].partition {
      assert u != t ==> RowBeside(tasks[u], tasks'[u]);
    }
  }

  lemma ClosedPhysical(executions: map<Id, Execution>, executions': map<Id, Execution>,
                       attempts: map<Id, Attempt>, attempts': map<Id, Attempt>,
                       incs: map<Id, Incarnation>, incs': map<Id, Incarnation>, a: Id)
    requires AttemptClosed(attempts, attempts', a) && ExecutionsSettled(executions, executions', a)
      && IncsKept(incs, incs')
    requires Physical(executions, attempts, incs)
    ensures Physical(executions', attempts', incs')
  {
    forall x | x in executions'
      ensures ExecutionPhysical(executions'[x], attempts') && ExecutionSettled(executions[x], executions'[x], a) {
      assert ExecutionPhysical(executions[x], attempts);
    }
  }

  // ---------------------------------------------------------------- writers

  ghost predicate HoldsKept(escalations: map<Id, Escalation>, escalations': map<Id, Escalation>) {
    forall k | k in escalations && escalations[k].Hold() :: k in escalations' && escalations'[k] == escalations[k]
  }

  /** What becomes of the writer of the closed attempt. */
  ghost predicate WriterSettled(tasks': map<Id, Task>, executions': map<Id, Execution>,
                                escalations': map<Id, Escalation>, a: Id, t: Id)
    requires t in tasks'
  {
    forall x | x in executions' && executions'[x].attempt == a && tasks'[t].mode.Write? && executions'[x].Unsafe() ::
      tasks'[t].state.Cancelled? || (tasks'[t].state.Suspended? && HasHold(escalations', t))
  }

  lemma HoldsStay(escalations: map<Id, Escalation>, escalations': map<Id, Escalation>, t: Id)
    requires HoldsKept(escalations, escalations') && HasHold(escalations, t)
    ensures HasHold(escalations', t)
  {
    var k :| k in escalations && escalations[k].task == t && escalations[k].Hold();
    assert escalations'[k].task == t && escalations'[k].Hold();
  }

  lemma ClosedWriters(tasks: map<Id, Task>, tasks': map<Id, Task>, attempts: map<Id, Attempt>,
                      attempts': map<Id, Attempt>,
                      executions: map<Id, Execution>, executions': map<Id, Execution>,
                      escalations: map<Id, Escalation>, escalations': map<Id, Escalation>, a: Id)
    requires AttemptClosed(attempts, attempts', a) && ExecutionsSettled(executions, executions', a)
    requires TaskClosed(tasks, tasks', attempts[a].task) && HoldsKept(escalations, escalations')
    requires tasks[attempts[a].task].Held() && attempts[a].number == tasks[attempts[a].task].epoch
    requires WriterSettled(tasks', executions', escalations', a, attempts[a].task)
    requires forall x | x in executions :: ExecutionPhysical(executions[x], attempts)
    requires WritersHeld(tasks, attempts, executions, escalations)
    ensures WritersHeld(tasks', attempts', executions', escalations')
  {
    var t := attempts[a].task;
    forall x | x in executions' ensures WriterHeld(tasks', attempts', executions'[x], escalations') {
      var e := executions[x];
      assert WriterHeld(tasks, attempts, e, escalations) && ExecutionSettled(e, executions'[x], a)
        && ExecutionPhysical(e, attempts);
      if e.task != t && e.task in tasks {
        assert RowBeside(tasks[e.task], tasks'[e.task]);
        if HasHold(escalations, e.task) {
          HoldsStay(escalations, escalations', e.task);
        }
      }
    }
  }

  // ---------------------------------------------------------------- escalations

  /** Nothing open can be pending on a task that is held. */
  lemma HeldNotOpen(tasks: map<Id, Task>, agents: map<Id, Agent>, escalations: map<Id, Escalation>, t: Id)
    requires Escalated(tasks, agents, escalations) && t in tasks && tasks[t].Held()
    ensures !HasOpen(escalations, t)
  {
    forall k | k in escalations && escalations[k].task == t ensures !escalations[k].state.Open? {
      assert EscalationSound(tasks, agents, escalations[k]);
    }
  }

  lemma EngagedNotHeld(tasks: map<Id, Task>, agents: map<Id, Agent>, escalations: map<Id, Escalation>, g: Id)
    requires Escalated(tasks, agents, escalations) && g in agents && Engaged(agents[g])
    ensures !HoldOn(escalations, g)
  {
    forall k | k in escalations && escalations[k].agent == g ensures !escalations[k].Hold() {
      assert EscalationSound(tasks, agents, escalations[k]);
    }
  }

  lemma SoundBeside(tasks: map<Id, Task>, tasks': map<Id, Task>, agents: map<Id, Agent>, agents': map<Id, Agent>,
                    escalations: map<Id, Escalation>, t: Id, g: Id, k: Id)
    requires TaskClosed(tasks, tasks', t) && AgentFreed(agents, agents', g)
    requires tasks[t].Held() && Engaged(agents[g]) && k in escalations && EscalationSound(tasks, agents, escalations[k])
    ensures EscalationSound(tasks', agents', escalations[k])
  {
    var u := escalations[k].task;
    assert u != t ==> RowBeside(tasks[u], tasks'[u]);
  }

  lemma ClosedEscalated(tasks: map<Id, Task>, tasks': map<Id, Task>, agents: map<Id, Agent>, agents': map<Id, Agent>,
                        escalations: map<Id, Escalation>, t: Id, g: Id)
    requires TaskClosed(tasks, tasks', t) && AgentFreed(agents, agents', g) && Escalated(tasks, agents, escalations)
    requires tasks[t].Held() && Engaged(agents[g])
    requires !tasks'[t].state.Suspended? && !agents'[g].state.Suspended?
    ensures Escalated(tasks', agents', escalations)
  {
    forall k | k in escalations ensures EscalationSound(tasks', agents', escalations[k]) {
      SoundBeside(tasks, tasks', agents, agents', escalations, t, g, k);
    }
    forall u | u in tasks' && tasks'[u].state.Suspended? ensures HasOpen(escalations, u) {
      assert RowBeside(tasks[u], tasks'[u]);
    }
  }

  lemma RaisedOpen(escalations: map<Id, Escalation>, drawn: Id, row: Escalation, t: Id)
    requires drawn !in escalations && HasOpen(escalations, t)
    ensures HasOpen(escalations[drawn := row], t)
  {
    var k :| k in escalations && escalations[k].task == t && escalations[k].state.Open?;
    assert k in escalations[drawn := row] && escalations[drawn := row][k].task == t
      && escalations[drawn := row][k].state.Open?;
  }

  lemma RaisedHold(escalations: map<Id, Escalation>, drawn: Id, row: Escalation, g: Id)
    requires drawn !in escalations && HoldOn(escalations, g)
    ensures HoldOn(escalations[drawn := row], g)
  {
    var k :| k in escalations && escalations[k].agent == g && escalations[k].Hold();
    assert k in escalations[drawn := row] && escalations[drawn := row][k].agent == g
      && escalations[drawn := row][k].Hold();
  }

  /** The row a settlement that needs a decision inserts. */
  predicate RaisedFor(row: Escalation, task: Task, t: Id, g: Id) {
    row.task == t && row.batch == task.batch && row.agent == g && row.state.Open?
  }

  lemma RaisedEscalated(tasks: map<Id, Task>, tasks': map<Id, Task>, agents: map<Id, Agent>, agents': map<Id, Agent>,
                        escalations: map<Id, Escalation>, drawn: Id, row: Escalation, t: Id, g: Id)
    requires TaskClosed(tasks, tasks', t) && AgentFreed(agents, agents', g) && Escalated(tasks, agents, escalations)
    requires tasks[t].Held() && Engaged(agents[g]) && drawn !in escalations && RaisedFor(row, tasks[t], t, g)
    requires tasks'[t].state.Suspended? || tasks'[t].state.Cancelled?
    requires agents'[g].state.Suspended? <==> row.cause.WriterQuiescenceUnknown?
    ensures Escalated(tasks', agents', escalations[drawn := row])
  {
    var escalations' := escalations[drawn := row];
    HeldNotOpen(tasks, agents, escalations, t);
    EngagedNotHeld(tasks, agents, escalations, g);
    forall k | k in escalations' ensures EscalationSound(tasks', agents', escalations'[k]) {
      if k != drawn {
        SoundBeside(tasks, tasks', agents, agents', escalations, t, g, k);
      }
    }
    forall u | u in tasks' && tasks'[u].state.Suspended? ensures HasOpen(escalations', u) {
      if u == t {
        assert escalations'[drawn].task == t && escalations'[drawn].state.Open?;
      } else {
        assert RowBeside(tasks[u], tasks'[u]);
        RaisedOpen(escalations, drawn, row, u);
      }
    }
    forall h | h in agents' && agents'[h].state.Suspended? ensures HoldOn(escalations', h) {
      if h == g {
        assert escalations'[drawn].agent == g && escalations'[drawn].Hold();
      } else {
        RaisedHold(escalations, drawn, row, h);
      }
    }
  }

  // ---------------------------------------------------------------- dependencies

  lemma SameDepsOrdered(tasks: map<Id, Task>, tasks': map<Id, Task>)
    requires tasks'.Keys == tasks.Keys && (forall t | t in tasks :: tasks'[t].deps == tasks[t].deps)
      && DepsOrdered(tasks)
    ensures DepsOrdered(tasks')
  {
    var rank :| Numbered(tasks, rank);
    forall t, d | WaitsFor(tasks', t, d) ensures Lower(rank, d, t) {
      assert WaitsFor(tasks, t, d);
    }
    assert Numbered(tasks', rank);
  }

  /** Closing a task other than by completion releases nobody. */
  lemma ClosedDeps(tasks: map<Id, Task>, tasks': map<Id, Task>, t: Id)
    requires t in tasks && t in tasks' && tasks' == tasks[t := tasks'[t]] && RowClosed(tasks[t], tasks'[t])
      && !tasks'[t].state.Completed?
    requires tasks[t].Held() && DepsSettled(tasks)
    ensures DepsSettled(tasks')
  {
    forall u | u in tasks' ensures TaskDeps(tasks', tasks'[u]) {
      assert TaskDeps(tasks, tasks[u]);
      if tasks[u].state.Blocked? {
        var d :| d in tasks[u].deps && d in tasks && !tasks[d].state.Completed?;
        assert d in tasks' && !tasks'[d].state.Completed?;
      }
    }
  }

  function Completing(tasks: map<Id, Task>, t: Id): map<Id, Task>
    requires t in tasks
  {
    tasks[t := tasks[t].(state := TaskState.Completed, current := None, nextEligible := None)]
  }

  lemma CompletedCloses(tasks: map<Id, Task>, t: Id)
    requires t in tasks
    ensures TaskClosed(tasks, ReleaseDependencies(Completing(tasks, t), tasks[t].batch), t)
  {
  }

  /** Completion releases exactly the tasks of the batch that waited for nothing else. */
  lemma CompletedDeps(tasks: map<Id, Task>, t: Id)
    requires t in tasks && tasks[t].Held() && DepsSettled(tasks)
    ensures DepsSettled(ReleaseDependencies(Completing(tasks, t), tasks[t].batch))
  {
    var done := Completing(tasks, t);
    var tasks' := ReleaseDependencies(done, tasks[t].batch);
    forall u | u in tasks' ensures TaskDeps(tasks', tasks'[u]) {
      CompletedRow(tasks, t, u);
    }
  }

  lemma StillWaiting(done: map<Id, Task>, b: Id, u: Id)
    requires u in done && done[u].state.Blocked? && ReleaseDependencies(done, b)[u].state.Blocked?
    requires exists d :: d in done[u].deps && d in done && !done[d].state.Completed?
    ensures var tasks' := ReleaseDependencies(done, b);
      exists d :: d in done[u].deps && d in tasks' && !tasks'[d].state.Completed?
  {
    var d :| d in done[u].deps && d in done && !done[d].state.Completed?;
    assert !ReleaseDependencies(done, b)[d].state.Completed?;
  }

  lemma CompletedRow(tasks: map<Id, Task>, t: Id, u: Id)
    requires t in tasks && u in tasks && tasks[t].Held() && TaskDeps(tasks, tasks[u])
    ensures var tasks' := ReleaseDependencies(Completing(tasks, t), tasks[t].batch); TaskDeps(tasks', tasks'[u])
  {
    var done := Completing(tasks, t);
    var tasks' := ReleaseDependencies(done, tasks[t].batch);
    if tasks'[u].state.Blocked? {
      if tasks[u].batch != tasks[t].batch {
        var d :| d in tasks[u].deps && d in tasks && !tasks[d].state.Completed?;
        assert d in done[u].deps && d in done && !done[d].state.Completed?;
      }
      StillWaiting(done, tasks[t].batch, u);
    }
  }

  // ---------------------------------------------------------------- batches and notices

  /** Only tasks of one batch changed. */
  ghost predicate BatchTouched(tasks: map<Id, Task>, tasks': map<Id, Task>, b: Id) {
    && tasks'.Keys == tasks.Keys
    && forall t | t in tasks :: tasks'[t].batch == tasks[t].batch && (tasks[t].batch != b ==> tasks'[t] == tasks[t])
  }

  lemma UntouchedNext(tasks: map<Id, Task>, tasks': map<Id, Task>, b: Id, c: Id)
    requires BatchTouched(tasks, tasks', b) && c != b
    ensures BatchNext(tasks', c) == BatchNext(tasks, c) && (AllCompleted(tasks', c) <==> AllCompleted(tasks, c))
  {
    if SomeStopped(tasks, c) {
      var t :| t in tasks && tasks[t].batch == c && (tasks[t].state.Suspended? || tasks[t].state.Cancelled?);
      assert tasks'[t] == tasks[t];
    }
    if SomeStopped(tasks', c) {
      var t :| t in tasks' && tasks'[t].batch == c && (tasks'[t].state.Suspended? || tasks'[t].state.Cancelled?);
      assert tasks'[t] == tasks[t];
    }
  }

  lemma UntouchedBatch(tasks: map<Id, Task>, tasks': map<Id, Task>, b: Id, c: Id, state: BatchState)
    requires BatchTouched(tasks, tasks', b) && c != b && BatchAgrees(tasks, c, state)
    ensures BatchAgrees(tasks', c, state)
  {
    UntouchedNext(tasks, tasks', b, c);
    var t :| t in tasks && tasks[t].batch == c;
    assert tasks'[t].batch == c;
  }

  lemma RecomputedBatches(tasks: map<Id, Task>, tasks': map<Id, Task>, batches: map<Id, BatchState>, b: Id)
    requires BatchTouched(tasks, tasks', b) && BatchesAgree(tasks, batches) && b in batches
    ensures BatchesAgree(tasks', batches[b := BatchNext(tasks', b)])
  {
    var batches' := batches[b := BatchNext(tasks', b)];
    forall c | c in batches' ensures BatchAgrees(tasks', c, batches'[c]) {
      assert BatchAgrees(tasks, c, batches[c]);
      if c != b {
        UntouchedBatch(tasks, tasks', b, c, batches[c]);
      } else {
        var t :| t in tasks && tasks[t].batch == b;
        assert tasks'[t].batch == b;
      }
    }
  }

  lemma NotifiedMore(outbox: map<Id, Event>, e: Id, event: Event, b: Id)
    requires e !in outbox
    ensures Notified(outbox[e := event], b) <==> Notified(outbox, b) || event == BatchResultsReady(b)
  {
    var outbox' := outbox[e := event];
    if Notified(outbox, b) {
      var f :| f in outbox && outbox[f] == BatchResultsReady(b);
      assert f in outbox' && outbox'[f] == BatchResultsReady(b);
    }
    if event == BatchResultsReady(b) {
      assert e in outbox' && outbox'[e] == BatchResultsReady(b);
    }
  }

  /** A decision request is no batch notice. */
  lemma DecisionNotices(tasks: map<Id, Task>, batches: map<Id, BatchState>, outbox: map<Id, Event>, e: Id, k: Id)
    requires NoticesMatch(tasks, batches, outbox) && e !in outbox
    ensures NoticesMatch(tasks, batches, outbox[e := DecisionRequired(k)])
  {
    forall b | b in batches ensures AllCompleted(tasks, b) <==> Notified(outbox[e := DecisionRequired(k)], b) {
      NotifiedMore(outbox, e, DecisionRequired(k), b);
    }
  }

  /** The batch was incomplete; it is notified exactly when this change completed it. */
  lemma RecomputedNotices(tasks: map<Id, Task>, tasks': map<Id, Task>, batches: map<Id, BatchState>,
                          outbox: map<Id, Event>, b: Id, notice: Id)
    requires BatchTouched(tasks, tasks', b) && NoticesMatch(tasks, batches, outbox) && b in batches
      && !AllCompleted(tasks, b)
    requires AllCompleted(tasks', b) ==> notice !in outbox
    ensures NoticesMatch(tasks', batches[b := BatchNext(tasks', b)],
                         if AllCompleted(tasks', b) then outbox[notice := BatchResultsReady(b)] else outbox)
  {
    var outbox' := if AllCompleted(tasks', b) then outbox[notice := BatchResultsReady(b)] else outbox;
    forall c | c in batches ensures AllCompleted(tasks', c) <==> Notified(outbox', c) {
      if c != b {
        UntouchedNext(tasks, tasks', b, c);
      }
      if AllCompleted(tasks', b) {
        NotifiedMore(outbox, notice, BatchResultsReady(b), c);
      }
    }
    assert !Notified(outbox, b);
  }

  lemma CompletedNext(tasks: map<Id, Task>, b: Id)
    ensures BatchNext(tasks, b).Completed? <==> AllCompleted(tasks, b)
  {
  }

  /** What the recomputation writes when the batch is neither cancelled nor complete. */
  lemma RecomputeValue(s: Db, b: Id, notice: Id)
    requires RecomputeBatch(s, b, notice).Ok? && !s.batches[b].Cancelled? && !s.batches[b].Completed?
    ensures AllCompleted(s.tasks, b) ==> notice !in s.outbox
    ensures RecomputeBatch(s, b, notice).value ==
      s.(batches := s.batches[b := BatchNext(s.tasks, b)],
         outbox := if AllCompleted(s.tasks, b) then s.outbox[notice := BatchResultsReady(b)] else s.outbox)
  {
    CompletedNext(s.tasks, b);
    if BatchNext(s.tasks, b) == s.batches[b] {
      assert s.batches[b := s.batches[b]] == s.batches;
    }
  }

  lemma EnterKeeps(s: Db, b: Id, next: BatchState, notice: Id)
    requires b in s.batches && EnterState(s, b, next, notice).Ok?
    ensures var s' := EnterState(s, b, next, notice).value;
      && s'.tasks == s.tasks && s'.executions == s.executions && s'.attempts == s.attempts && s'.leases == s.leases
      && s'.agents == s.agents && s'.escalations == s.escalations
  {
  }

  lemma RecomputeKeeps(s: Db, b: Id, notice: Id)
    requires RecomputeBatch(s, b, notice).Ok?
    ensures var s' := RecomputeBatch(s, b, notice).value;
      && s'.tasks == s.tasks && s'.executions == s.executions && s'.attempts == s.attempts && s'.leases == s.leases
      && s'.agents == s.agents && s'.escalations == s.escalations
  {
    if !s.batches[b].Cancelled? {
      EnterKeeps(s, b, BatchNext(s.tasks, b), notice);
    }
  }
}
