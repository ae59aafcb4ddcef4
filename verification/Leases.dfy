/** When leases are granted and extended, in terms of the rows. */
module Leases {
  import opened Options
  import opened RowOrder
  import opened Tables
  import opened Work
  import opened Invariants

  /** The attempt is ACTIVE in its own epoch and its lease has time left. */
  predicate InForce(s: Db, a: Id, epoch: nat, now: real) {
    && a in s.attempts && s.attempts[a].state == AttemptState.Active && s.attempts[a].epoch == epoch
    && a in s.leases && s.leases[a].expires > now
  }

  lemma InForceIff(s: Db, a: Id, epoch: nat, now: real)
    requires Fenced(s.tasks, s.attempts, s.leases)
    ensures InForce(s, a, epoch, now) <==> CheckAuthority(s, a, epoch, now).Ok?
  {
    if a in s.attempts {
      assert AttemptFenced(s.tasks, s.attempts[a], s.leases[a], a);
    }
  }

  predicate Seen(s: Db, a: Id) {
    exists x :: x in s.executions && s.executions[x].attempt == a && s.executions[x].state == ExecutionState.Running
  }

  // ---------------------------------------------------------------- a claim

  /** The next attempt of the task, under a lease that starts now, by an agent that takes on the
      task and its workstream. */
  ghost predicate Granted(s: Db, s': Db, t: Id, g: Id, a: Id, seconds: real, now: real) {
    && t in s.tasks && g in s.agents && a !in s.attempts && a !in s.leases
    && var epoch := s.tasks[t].epoch + 1;
    && s'.attempts == s.attempts[a := Attempt(t, g, None, epoch, epoch, AttemptState.Active)]
    && s'.leases == s.leases[a := Lease(t, epoch, LeaseState.Active, now + seconds)]
    && s'.tasks == s.tasks[t := s.tasks[t].(state := TaskState.Leased, current := Some(a), epoch := epoch)]
    && s'.agents == s.agents[g := s.agents[g].(state := AgentState.Assigned, current := Some(t), available := None,
                                               workstream := match s.tasks[t].workstream
                                                 case Some(w) => Some(w) case None => s.agents[g].workstream)]
    && s'.executions == s.executions && s'.escalations == s.escalations && s'.batches == s.batches
  }

  lemma ClaimGrants(s: Db, t: Id, g: Id, a: Id, seconds: real, now: real)
    requires EpochsCount(s.tasks, s.attempts) && t in s.tasks && g in s.agents
    requires ClaimSelected(s, t, g, a, seconds, now).Ok?
    ensures Granted(s, ClaimSelected(s, t, g, a, seconds, now).value, t, g, a, seconds, now)
  {
    assert |AttemptsOf(s.attempts, t)| == s.tasks[t].epoch;
  }

  // ---------------------------------------------------------------- extensions

  /** Only this lease was extended. */
  predicate Extended(s: Db, s': Db, a: Id, seconds: real, now: real) {
    a in s.leases && s'.leases == s.leases[a := s.leases[a].(expires := now + seconds)]
  }

  /** A heartbeat commits exactly while the attempt is in force and seen RUNNING, and moves its
      lease alone. */
  lemma HeartbeatExactly(s: Db, a: Id, epoch: nat, seconds: real, now: real)
    requires Fenced(s.tasks, s.attempts, s.leases)
    ensures var r := Heartbeat(s, a, epoch, seconds, now);
      && (r.Ok? <==> InForce(s, a, epoch, now) && Seen(s, a))
      && (r.Ok? ==> Extended(s, r.value, a, seconds, now) && r.value == s.(leases := r.value.leases))
  {
    InForceIff(s, a, epoch, now);
  }

  predicate Startable(s: Db, a: Id, x: Id) {
    && x in s.executions && s.executions[x].attempt == a
    && (s.executions[x].state == ExecutionState.Starting || s.executions[x].state == ExecutionState.Running
        || s.executions[x].state == ExecutionState.Unknown)
  }

  /** A start is confirmed exactly while the attempt is in force and its execution not over; the
      execution and the task are then RUNNING and the lease runs from now. */
  lemma ConfirmExactly(s: Db, a: Id, epoch: nat, x: Id, seconds: real, now: real)
    requires Fenced(s.tasks, s.attempts, s.leases)
    ensures var r := ConfirmRunning(s, a, epoch, x, seconds, now);
      && (r.Ok? <==> InForce(s, a, epoch, now) && Startable(s, a, x))
      && (r.Ok? ==> Confirmed(s, r.value, a, x, seconds, now))
  {
    InForceIff(s, a, epoch, now);
  }

  predicate Confirmed(s: Db, s': Db, a: Id, x: Id, seconds: real, now: real) {
    && a in s.attempts && x in s.executions && s.attempts[a].task in s.tasks && Extended(s, s', a, seconds, now)
    && s'.executions == s.executions[x := s.executions[x].(state := ExecutionState.Running)]
    && s'.tasks == s.tasks[s.attempts[a].task := s.tasks[s.attempts[a].task].(state := TaskState.Running)]
    && s'.attempts == s.attempts && s'.agents == s.agents
  }

  /** The supervised leases that are in force and seen RUNNING are extended, and no others. */
  lemma RenewExactly(s: Db, supervised: set<Id>, seconds: real, now: real, a: Id)
    requires Fenced(s.tasks, s.attempts, s.leases) && a in s.leases
    ensures var s' := RenewActiveLeases(s, supervised, seconds, now);
      && s' == s.(leases := s'.leases) && s'.leases.Keys == s.leases.Keys
      && s'.leases[a] == if a in supervised && InForce(s, a, s.leases[a].epoch, now) && Seen(s, a)
                         then s.leases[a].(expires := now + seconds) else s.leases[a]
  {
    assert AttemptFenced(s.tasks, s.attempts[a], s.leases[a], a);
  }

  // ---------------------------------------------------------------- presence

  /** What an observation makes of an incarnation: RUNNING or a reusable end keeps a live one WARM,
      a confirmed end terminates it, even after it was LOST, and any other end loses a live one.
      Nothing revives one that is over. */
  function Embodied(row: IncarnationState, state: ExecutionState, confirmed: bool, reusable: bool): IncarnationState {
    var live := row == IncarnationState.Starting || row == IncarnationState.Warm || row == IncarnationState.Cold;
    match state
    case Starting => row
    case Unknown => row
    case Running => if live then IncarnationState.Warm else row
    case _ =>
      if reusable && confirmed then (if live then IncarnationState.Warm else row)
      else if confirmed && state != ExecutionState.Lost
      then (if live || row == IncarnationState.Lost then IncarnationState.Terminated else row)
      else (if live then IncarnationState.Lost else row)
  }

  lemma PresenceIs(incs: map<Id, Incarnation>, i: Id, state: ExecutionState, terminal: bool, quiescent: bool,
                   reusable: bool)
    requires i in incs
    ensures Presence(incs, Some(i), state, terminal, quiescent, reusable)
      == incs[i := incs[i].(state := Embodied(incs[i].state, state, terminal && quiescent, reusable))]
  {
    assert incs[i := incs[i]] == incs;
  }
}
