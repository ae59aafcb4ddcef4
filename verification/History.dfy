/** What one transaction may do to rows that already exist. */
module History {
  import opened Options
  import opened RowOrder
  import opened Tables
  import opened TopologyProofs
  import opened ReshapeProofs
  import opened Closing
  import opened Settlement

  // ---------------------------------------------------------------- rows over time

  /** A closed attempt stays closed, and nothing that fences it changes. */
  predicate AttemptEvolves(p: Attempt, q: Attempt) {
    q.task == p.task && q.agent == p.agent && q.number == p.number && q.epoch == p.epoch
      && (p.state.Active? || q.state == p.state)
  }

  /** A lease that has run out is never extended. */
  predicate LeaseEvolves(p: Lease, q: Lease, now: real) {
    q.task == p.task && q.epoch == p.epoch && (p.state.Active? || q.state == p.state)
      && (p.expires <= now ==> q.expires <= now)
  }

  predicate Waiting(task: Task) {
    task.state.Blocked? || task.state.Queued? || task.state.RetryWait?
  }

  /** Attempts still allowed by the retry budget; a waiting task is about to spend one. */
  function Slack(task: Task): int {
    task.maxAttempts - task.epoch - if Waiting(task) then 1 else 0
  }

  /** A terminal task never changes, and only a pardon lowers the slack below zero. */
  predicate TaskEvolves(p: Task, q: Task, pardoned: bool) {
    && q.batch == p.batch && q.deps == p.deps && q.mode == p.mode && q.maxAttempts == p.maxAttempts
      && p.epoch <= q.epoch
    && (p.Terminal() ==> q == p)
    && (Slack(q) >= 0 || Slack(q) >= Slack(p) || (pardoned && Slack(q) >= Slack(p) - 1))
  }

  ghost predicate AttemptsEvolve(attempts: map<Id, Attempt>, attempts': map<Id, Attempt>) {
    forall a | a in attempts :: a in attempts' && AttemptEvolves(attempts[a], attempts'[a])
  }

  ghost predicate LeasesEvolve(leases: map<Id, Lease>, leases': map<Id, Lease>, now: real) {
    forall a | a in leases :: a in leases' && LeaseEvolves(leases[a], leases'[a], now)
  }

  ghost predicate TasksEvolve(tasks: map<Id, Task>, tasks': map<Id, Task>, pardon: Option<Id>) {
    && (forall t | t in tasks :: t in tasks' && TaskEvolves(tasks[t], tasks'[t], pardon == Some(t)))
    && (forall t | t in tasks' && t !in tasks :: Slack(tasks'[t]) >= 0)
  }

  /** A writer-safety escalation stays open unless it is the one being resolved. */
  ghost predicate HoldsEvolve(escalations: map<Id, Escalation>, escalations': map<Id, Escalation>,
                              resolved: Option<Id>) {
    forall k | k in escalations && escalations[k].Hold()
      && resolved != Some(k) :: k in escalations' && escalations'[k] == escalations[k]
  }

  ghost predicate ResultsEvolve(results: map<Id, Result>, results': map<Id, Result>) {
    forall r | r in results :: r in results' && results'[r] == results[r].(acked := results'[r].acked)
  }

  /** `pardon` is the task Root sends back to the queue, `resolved` the escalation it settles. */
  ghost predicate Evolves(s: Db, s': Db, now: real, pardon: Option<Id>, resolved: Option<Id>) {
    && AttemptsEvolve(s.attempts, s'.attempts) && LeasesEvolve(s.leases, s'.leases, now)
      && TasksEvolve(s.tasks, s'.tasks, pardon)
    && HoldsEvolve(s.escalations, s'.escalations, resolved) && ResultsEvolve(s.results, s'.results)
      && Grown(s.outbox, s'.outbox) && IncsKept(s.incarnations, s'.incarnations)
  }

  lemma EvolvesSelf(s: Db, now: real, pardon: Option<Id>, resolved: Option<Id>)
    ensures Evolves(s, s, now, pardon, resolved)
  {
  }

  lemma TasksEvolveTrans(x: map<Id, Task>, y: map<Id, Task>, z: map<Id, Task>)
    requires TasksEvolve(x, y, None) && TasksEvolve(y, z, None)
    ensures TasksEvolve(x, z, None)
  {
    forall t | t in x ensures t in z && TaskEvolves(x[t], z[t], false) {
      assert TaskEvolves(x[t], y[t], false) && TaskEvolves(y[t], z[t], false);
    }
    forall t | t in z && t !in x ensures Slack(z[t]) >= 0 {
      assert t in y ==> TaskEvolves(y[t], z[t], false);
    }
  }

  lemma EvolvesTrans(s: Db, s': Db, s'': Db, now: real)
    requires Evolves(s, s', now, None, None) && Evolves(s', s'', now, None, None)
    ensures Evolves(s, s'', now, None, None)
  {
    TasksEvolveTrans(s.tasks, s'.tasks, s''.tasks);
    forall a | a in s.attempts ensures a in s''.attempts && AttemptEvolves(s.attempts[a], s''.attempts[a]) {
      assert AttemptEvolves(s.attempts[a], s'.attempts[a]) && AttemptEvolves(s'.attempts[a], s''.attempts[a]);
    }
    forall a | a in s.leases ensures a in s''.leases && LeaseEvolves(s.leases[a], s''.leases[a], now) {
      assert LeaseEvolves(s.leases[a], s'.leases[a], now) && LeaseEvolves(s'.leases[a], s''.leases[a], now);
    }
  }

  // ---------------------------------------------------------------- from the shapes of the operations

  lemma AlikeEvolve(tasks: map<Id, Task>, tasks': map<Id, Task>)
    requires Alike(tasks, tasks')
    ensures TasksEvolve(tasks, tasks', None)
  {
    forall t | t in tasks ensures TaskEvolves(tasks[t], tasks'[t], false) {
      assert TaskAlike(tasks[t], tasks'[t]);
    }
  }

  /** No lease is extended after it has run out. */
  ghost predicate LeasesHonest(leases: map<Id, Lease>, leases': map<Id, Lease>, now: real) {
    forall a | a in leases && a in leases' :: leases[a].expires <= now ==> leases'[a].expires == leases[a].expires
  }

  lemma UndisturbedEvolves(s: Db, s': Db, now: real)
    requires Undisturbed(s, s') && LeasesHonest(s.leases, s'.leases, now)
    ensures Evolves(s, s', now, None, None)
  {
    AlikeEvolve(s.tasks, s'.tasks);
  }

  lemma ReshapedEvolves(s: Db, s': Db, now: real)
    requires Reshaped(s, s')
    ensures Evolves(s, s', now, None, None)
  {
    ReshapedUndisturbed(s, s');
    UndisturbedEvolves(s, s', now);
  }

  lemma ClosedEvolve(tasks: map<Id, Task>, tasks': map<Id, Task>, t: Id)
    requires TaskClosed(tasks, tasks', t) && tasks[t].Held()
    requires tasks'[t].state.RetryWait? ==> tasks[t].epoch < tasks[t].maxAttempts
    ensures TasksEvolve(tasks, tasks', None)
  {
    forall u | u in tasks ensures TaskEvolves(tasks[u], tasks'[u], false) {
      assert u != t ==> RowBeside(tasks[u], tasks'[u]);
    }
  }

  lemma SettledEvolves(s: Db, s': Db, a: Id, now: real)
    requires Settled(s, s', a)
    ensures Evolves(s, s', now, None, None)
  {
    ClosedEvolve(s.tasks, s'.tasks, s.attempts[a].task);
    assert ResultsEvolve(s.results, s'.results);
    assert HoldsEvolve(s.escalations, s'.escalations, None);
    assert AttemptsEvolve(s.attempts, s'.attempts);
    assert LeasesEvolve(s.leases, s'.leases, now);
  }
}
