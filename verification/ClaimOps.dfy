/** Claims and executions open authority and keep the whole invariant. */
module ClaimOps {
  import opened Options
  import opened RowOrder
  import opened Tables
  import opened Work
  import opened Invariants
  import opened ReshapeProofs
  import opened Closing

  // ---------------------------------------------------------------- claims, table by table

  /** The rows `_claim_selected` inserts for an idle task and an idle agent. */
  ghost predicate Opens(tasks: map<Id, Task>, tasks': map<Id, Task>, attempts: map<Id, Attempt>,
                        attempts': map<Id, Attempt>,
                        a: Id, t: Id, g: Id) {
    && t in tasks && t in tasks' && a !in attempts && a in attempts'
    && tasks[t].state.Queued?
    && tasks' == tasks[t := tasks[t].(state := TaskState.Leased, current := Some(a), epoch := tasks[t].epoch + 1)]
    && attempts' == attempts[a := Attempt(t, g, None, tasks[t].epoch + 1, tasks[t].epoch + 1, AttemptState.Active)]
  }

  lemma OpenedFenced(tasks: map<Id, Task>, tasks': map<Id, Task>, attempts: map<Id, Attempt>,
                     attempts': map<Id, Attempt>,
                     leases: map<Id, Lease>, lease: Lease, a: Id, t: Id, g: Id)
    requires Opens(tasks, tasks', attempts, attempts', a, t, g) && Fenced(tasks, attempts, leases)
    requires lease.task == t && lease.epoch == tasks[t].epoch + 1 && lease.state.Active?
    ensures Fenced(tasks', attempts', leases[a := lease])
  {
    var leases' := leases[a := lease];
    assert TaskFenced(tasks[t], attempts, t);
    forall b | b in attempts' ensures AttemptFenced(tasks', attempts'[b], leases'[b], b) {
      assert b != a ==> AttemptFenced(tasks, attempts[b], leases[b], b);
    }
    forall u | u in tasks' ensures TaskFenced(tasks'[u], attempts', u) {
      assert TaskFenced(tasks[u], attempts, u);
    }
    forall b, c | b in attempts' && c in attempts' && attempts'[b].task == attempts'[c].task
      && attempts'[b].number == attempts'[c].number
      ensures b == c {
      assert b != a ==> AttemptFenced(tasks, attempts[b], leases[b], b);
      assert c != a ==> AttemptFenced(tasks, attempts[c], leases[c], c);
    }
  }

  lemma OpenedAttempts(attempts: map<Id, Attempt>, a: Id, row: Attempt, u: Id)
    requires a !in attempts
    ensures |AttemptsOf(attempts[a := row], u)| == |AttemptsOf(attempts, u)| + if row.task == u then 1 else 0
  {
    if row.task == u {
      assert AttemptsOf(attempts[a := row], u) == AttemptsOf(attempts, u) + {a};
    } else {
      assert AttemptsOf(attempts[a := row], u) == AttemptsOf(attempts, u);
    }
  }

  lemma OpenedEpochs(tasks: map<Id, Task>, tasks': map<Id, Task>, attempts: map<Id, Attempt>,
                     attempts': map<Id, Attempt>,
                     a: Id, t: Id, g: Id)
    requires Opens(tasks, tasks', attempts, attempts', a, t, g) && EpochsCount(tasks, attempts)
    ensures EpochsCount(tasks', attempts')
  {
    forall u | u in tasks' ensures |AttemptsOf(attempts', u)| == tasks'[u].epoch {
      assert |AttemptsOf(attempts, u)| == tasks[u].epoch;
      OpenedAttempts(attempts, a, attempts'[a], u);
    }
  }

  lemma OpenedEngaged(tasks: map<Id, Task>, tasks': map<Id, Task>, attempts: map<Id, Attempt>,
                      attempts': map<Id, Attempt>,
                      agents: map<Id, Agent>, row: Agent, a: Id, t: Id, g: Id)
    requires Opens(tasks, tasks', attempts, attempts', a, t, g) && AgentsEngaged(tasks, attempts, agents)
    requires g in agents && agents[g].current.None? && tasks[t].current.None?
    requires Engaged(row) && row.current == Some(t)
    ensures AgentsEngaged(tasks', attempts', agents[g := row])
  {
    var agents' := agents[g := row];
    forall h | h in agents' ensures AgentAssigned(tasks', attempts', agents'[h], h) {
      assert AgentAssigned(tasks, attempts, agents[h], h);
    }
  }

  lemma OpenedPhysical(tasks: map<Id, Task>, tasks': map<Id, Task>, attempts: map<Id, Attempt>,
                       attempts': map<Id, Attempt>,
                       executions: map<Id, Execution>, incs: map<Id, Incarnation>, escalations: map<Id, Escalation>,
                         a: Id, t: Id, g: Id)
    requires Opens(tasks, tasks', attempts, attempts', a, t, g)
    requires Physical(executions, attempts, incs) && WritersHeld(tasks, attempts, executions, escalations)
    ensures Physical(executions, attempts', incs) && WritersHeld(tasks', attempts', executions, escalations)
  {
    forall x | x in executions
      ensures ExecutionPhysical(executions[x], attempts') && WriterHeld(tasks', attempts', executions[x], escalations) {
      assert ExecutionPhysical(executions[x], attempts) && WriterHeld(tasks, attempts, executions[x], escalations);
    }
  }

  lemma OpenedEscalated(tasks: map<Id, Task>, tasks': map<Id, Task>, attempts: map<Id, Attempt>,
                        attempts': map<Id, Attempt>,
                        agents: map<Id, Agent>, row: Agent, escalations: map<Id, Escalation>, a: Id, t: Id, g: Id)
    requires Opens(tasks, tasks', attempts, attempts', a, t, g) && Escalated(tasks, agents, escalations)
    requires g in agents && agents[g].state.Ready? && row.state.Assigned?
    ensures Escalated(tasks', agents[g := row], escalations)
  {
    forall k | k in escalations ensures EscalationSound(tasks', agents[g := row], escalations[k]) {
      assert EscalationSound(tasks, agents, escalations[k]);
    }
  }

  lemma OpenedTasks(tasks: map<Id, Task>, tasks': map<Id, Task>, attempts: map<Id, Attempt>,
                    attempts': map<Id, Attempt>,
                    a: Id, t: Id, g: Id)
    requires Opens(tasks, tasks', attempts, attempts', a, t, g) && DepsSettled(tasks) && DepsOrdered(tasks)
    ensures DepsSettled(tasks') && DepsOrdered(tasks') && SameProgress(tasks, tasks')
  {
    forall u | u in tasks' ensures TaskDeps(tasks', tasks'[u]) {
      assert TaskDeps(tasks, tasks[u]);
      if tasks[u].state.Blocked? {
        var d :| d in tasks[u].deps && d in tasks && !tasks[d].state.Completed?;
        assert d in tasks' && !tasks'[d].state.Completed?;
      }
    }
    SameDepsOrdered(tasks, tasks');
  }

  // ---------------------------------------------------------------- claims

  /** What a claim demands of the pair it joins. */
  predicate Joinable(s: Db, t: Id, g: Id) {
    && t in s.tasks && g in s.agents && s.tasks[t].state.Queued? && s.agents[g].state.Ready?
      && s.agents[g].current.None?
    && s.agents[g].partition == s.tasks[t].partition
  }

  /** Everything a claim writes. */
  ghost predicate Claims(s: Db, s': Db, t: Id, g: Id, a: Id) {
    && Joinable(s, t, g) && s.tasks[t].current.None?
    && Opens(s.tasks, s'.tasks, s.attempts, s'.attempts, a, t, g)
    && a in s'.leases && s'.leases == s.leases[a := s'.leases[a]]
    && s'.leases[a].task == t && s'.leases[a].epoch == s.tasks[t].epoch + 1 && s'.leases[a].state.Active?
    && g in s'.agents && s'.agents == s.agents[g := s'.agents[g]]
    && s'.agents[g] == s.agents[g].(state := AgentState.Assigned, current := Some(t), available := None,
                                    workstream := s'.agents[g].workstream)
    && s' == s.(tasks := s'.tasks, attempts := s'.attempts, leases := s'.leases, agents := s'.agents)
  }

  lemma ClaimOpens(s: Db, t: Id, g: Id, a: Id, leaseSeconds: real, now: real)
    requires Joinable(s, t, g) && s.tasks[t].current.None? && |AttemptsOf(s.attempts, t)| == s.tasks[t].epoch
    requires ClaimSelected(s, t, g, a, leaseSeconds, now).Ok?
    ensures Claims(s, ClaimSelected(s, t, g, a, leaseSeconds, now).value, t, g, a)
  {
  }

  lemma ClaimsPlaced(s: Db, s': Db, t: Id, g: Id, a: Id)
    requires TopologyOk(s) && Claims(s, s', t, g, a)
    ensures TopologyOk(s')
  {
    assert AgentPlaced(s.agents[g], s.partitions);
  }

  lemma ClaimsHomes(s: Db, s': Db, t: Id, g: Id, a: Id)
    requires Homes(s.tasks, s.agents) && Claims(s, s', t, g, a)
    ensures Homes(s'.tasks, s'.agents)
  {
  }

  lemma IdleTask(s: Db, t: Id)
    requires Fenced(s.tasks, s.attempts, s.leases) && EpochsCount(s.tasks, s.attempts) && t in s.tasks
      && !s.tasks[t].Held()
    ensures s.tasks[t].current.None? && |AttemptsOf(s.attempts, t)| == s.tasks[t].epoch
  {
    assert TaskFenced(s.tasks[t], s.attempts, t);
  }

  lemma ClaimsInv(s: Db, s': Db, t: Id, g: Id, a: Id)
    requires Inv(s) && Claims(s, s', t, g, a)
    ensures Inv(s')
  {
    OpenedFenced(s.tasks, s'.tasks, s.attempts, s'.attempts, s.leases, s'.leases[a], a, t, g);
    OpenedEpochs(s.tasks, s'.tasks, s.attempts, s'.attempts, a, t, g);
    OpenedEngaged(s.tasks, s'.tasks, s.attempts, s'.attempts, s.agents, s'.agents[g], a, t, g);
    OpenedPhysical(s.tasks, s'.tasks, s.attempts, s'.attempts, s.executions, s.incarnations, s.escalations, a, t, g);
    OpenedEscalated(s.tasks, s'.tasks, s.attempts, s'.attempts, s.agents, s'.agents[g], s.escalations, a, t, g);
    OpenedTasks(s.tasks, s'.tasks, s.attempts, s'.attempts, a, t, g);
    ClaimsPlaced(s, s', t, g, a);
    ClaimsHomes(s, s', t, g, a);
    ProgressBatches(s.tasks, s'.tasks, s.batches);
    ProgressResults(s.tasks, s'.tasks, s.batches, s.results, s.outbox);
  }

  lemma ClaimInv(s: Db, t: Id, g: Id, a: Id, leaseSeconds: real, now: real)
    requires Inv(s) && Joinable(s, t, g) && ClaimSelected(s, t, g, a, leaseSeconds, now).Ok?
    ensures Inv(ClaimSelected(s, t, g, a, leaseSeconds, now).value)
  {
    IdleTask(s, t);
    ClaimOpens(s, t, g, a, leaseSeconds, now);
    ClaimsInv(s, ClaimSelected(s, t, g, a, leaseSeconds, now).value, t, g, a);
  }

  // ---------------------------------------------------------------- the two claim calls

  lemma {:induction false} FirstPairFits(s: Db, list: seq<Id>)
    requires forall t | t in list :: t in s.tasks
    ensures match FirstPair(s, list)
      case None => forall t, g | t in list && g in s.agents :: !Fits(s.tasks[t], s.agents[g])
      case Some((t, g)) => t in list && g in s.agents && Fits(s.tasks[t], s.agents[g])
  {
    if list != [] {
      FirstPairFits(s, list[1..]);
      var rows := FittingRows(s, list[0]);
      if rows == map[] {
        forall g | g in s.agents ensures !Fits(s.tasks[list[0]], s.agents[g]) {
          assert g !in rows;
        }
      }
    }
  }

  /** A claim call changes nothing, or joins one idle pair. */
  ghost predicate ClaimResult(s: Db, s': Db, pair: Option<(Id, Id)>, a: Id, leaseSeconds: real, now: real) {
    match pair
    case None => s' == s
    case Some((t, g)) => Joinable(s, t, g) && ClaimSelected(s, t, g, a, leaseSeconds, now) == Ok(s')
  }

  lemma NextAvailableResult(s: Db, a: Id, leaseSeconds: real, now: real)
    requires ClaimNextAvailable(s, a, leaseSeconds, now).Ok?
    ensures var (s', pair) := ClaimNextAvailable(s, a, leaseSeconds, now).value;
      ClaimResult(s, s', pair, a, leaseSeconds, now)
  {
    var list := Listing(ClaimableRows(s, now));
    FirstPairFits(s, list);
    match FirstPair(s, list)
    case None =>
    case Some((t, g)) =>
      assert t in ClaimableRows(s, now);
  }

  lemma NextAvailableJoins(s: Db, a: Id, leaseSeconds: real, now: real, t: Id, g: Id)
    requires ClaimNextAvailable(s, a, leaseSeconds, now).Ok?
      && ClaimNextAvailable(s, a, leaseSeconds, now).value.1 == Some((t, g))
    ensures Joinable(s, t, g)
  {
    NextAvailableResult(s, a, leaseSeconds, now);
  }

  lemma ClaimNextResult(s: Db, g: Id, a: Id, leaseSeconds: real, now: real)
    requires ClaimNext(s, g, a, leaseSeconds, now).Ok?
    ensures var (s', t) := ClaimNext(s, g, a, leaseSeconds, now).value;
      ClaimResult(s, s', if t.None? then None else Some((t.value, g)), a, leaseSeconds, now)
  {
  }

  lemma ClaimResultInv(s: Db, s': Db, pair: Option<(Id, Id)>, a: Id, leaseSeconds: real, now: real)
    requires Inv(s) && ClaimResult(s, s', pair, a, leaseSeconds, now)
    ensures Inv(s')
  {
    match pair
    case None =>
    case Some((t, g)) => ClaimInv(s, t, g, a, leaseSeconds, now);
  }

  lemma NextAvailableInv(s: Db, a: Id, leaseSeconds: real, now: real)
    requires Inv(s) && ClaimNextAvailable(s, a, leaseSeconds, now).Ok?
    ensures Inv(ClaimNextAvailable(s, a, leaseSeconds, now).value.0)
  {
    NextAvailableResult(s, a, leaseSeconds, now);
    var r := ClaimNextAvailable(s, a, leaseSeconds, now).value;
    ClaimResultInv(s, r.0, r.1, a, leaseSeconds, now);
  }

  lemma ClaimNextInv(s: Db, g: Id, a: Id, leaseSeconds: real, now: real)
    requires Inv(s) && ClaimNext(s, g, a, leaseSeconds, now).Ok?
    ensures Inv(ClaimNext(s, g, a, leaseSeconds, now).value.0)
  {
    ClaimNextResult(s, g, a, leaseSeconds, now);
    var r := ClaimNext(s, g, a, leaseSeconds, now).value;
    ClaimResultInv(s, r.0, if r.1.None? then None else Some((r.1.value, g)), a, leaseSeconds, now);
  }
}
