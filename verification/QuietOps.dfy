/** Operations that open and close no attempt: heartbeats, physical history,
    retry promotion and checkpoints keep the whole invariant. */
module QuietOps {
  import opened Options
  import opened RowOrder
  import opened Tables
  import opened Work
  import opened Invariants
  import opened TopologyProofs
  import opened ReshapeProofs

  /** Authority is only ever over a LEASED or RUNNING task. */
  lemma AuthorityHeld(s: Db, a: Id, epoch: nat, now: real)
    requires Fenced(s.tasks, s.attempts, s.leases) && Authority(s, a, epoch, now)
    ensures s.tasks[s.attempts[a].task].Held()
  {
    assert TaskFenced(s.tasks[s.attempts[a].task], s.attempts, s.attempts[a].task);
  }

  lemma PresenceKept(incs: map<Id, Incarnation>, i: Option<Id>, state: ExecutionState,
                     terminal: bool, quiescent: bool, reusable: bool)
    ensures IncsKept(incs, Presence(incs, i, state, terminal, quiescent, reusable))
  {
  }

  /** Only rows of one task, one execution, incarnations and leases moved. */
  lemma QuietReshapes(s: Db, s': Db)
    requires s' == s.(executions := s'.executions, tasks := s'.tasks, incarnations := s'.incarnations,
                      leases := s'.leases)
    requires Alike(s.tasks, s'.tasks) && LeasesAlike(s.leases, s'.leases)
      && ExecutionsAlike(s.executions, s'.executions)
    requires IncsKept(s.incarnations, s'.incarnations)
    requires SamePlaces(s.tasks, s'.tasks)
    requires TopologyOk(s)
    ensures Undisturbed(s, s') && TopologyOk(s') && SamePlaces(s.tasks, s'.tasks)
  {
    forall t | t in s'.tasks
      ensures s'.tasks[t].partition in s'.partitions
        && (!s'.tasks[t].Terminal() ==> s'.partitions[s'.tasks[t].partition].active) {
      assert TaskAlike(s.tasks[t], s'.tasks[t]);
    }
  }

  lemma OneTask(tasks: map<Id, Task>, t: Id, row: Task)
    requires t in tasks && TaskAlike(tasks[t], row)
    ensures Alike(tasks, tasks[t := row])
  {
  }

  lemma OneExecution(executions: map<Id, Execution>, x: Id, row: Execution)
    requires x in executions && ExecutionAlike(executions[x], row)
    ensures ExecutionsAlike(executions, executions[x := row])
  {
  }

  lemma OneLease(leases: map<Id, Lease>, a: Id, expires: real)
    requires a in leases
    ensures LeasesAlike(leases, leases[a := leases[a].(expires := expires)])
  {
  }

  lemma ConfirmReshapes(s: Db, a: Id, epoch: nat, x: Id, leaseSeconds: real, now: real)
    requires ConfirmRunning(s, a, epoch, x, leaseSeconds, now).Ok?
    requires s.tasks[s.attempts[a].task].Held() && TopologyOk(s)
    ensures var s' := ConfirmRunning(s, a, epoch, x, leaseSeconds, now).value;
      Undisturbed(s, s') && TopologyOk(s') && SamePlaces(s.tasks, s'.tasks)
  {
    var t := s.attempts[a].task;
    OneTask(s.tasks, t, s.tasks[t].(state := TaskState.Running));
    OneExecution(s.executions, x, s.executions[x].(state := ExecutionState.Running));
    OneLease(s.leases, a, now + leaseSeconds);
    QuietReshapes(s, ConfirmRunning(s, a, epoch, x, leaseSeconds, now).value);
  }

  lemma ConfirmInv(s: Db, a: Id, epoch: nat, x: Id, leaseSeconds: real, now: real)
    requires Inv(s) && ConfirmRunning(s, a, epoch, x, leaseSeconds, now).Ok?
    ensures Inv(ConfirmRunning(s, a, epoch, x, leaseSeconds, now).value)
  {
    AuthorityHeld(s, a, epoch, now);
    ConfirmReshapes(s, a, epoch, x, leaseSeconds, now);
    StillInv(s, ConfirmRunning(s, a, epoch, x, leaseSeconds, now).value);
  }

  lemma AmbiguityInv(s: Db, a: Id, epoch: nat, x: Id, now: real)
    requires Inv(s) && RecordStartAmbiguity(s, a, epoch, x, now).Ok?
    ensures Inv(RecordStartAmbiguity(s, a, epoch, x, now).value)
  {
    AmbiguityReshapes(s, a, epoch, x, now);
    StillInv(s, RecordStartAmbiguity(s, a, epoch, x, now).value);
  }

  lemma AmbiguityReshapes(s: Db, a: Id, epoch: nat, x: Id, now: real)
    requires TopologyOk(s) && RecordStartAmbiguity(s, a, epoch, x, now).Ok?
    ensures var s' := RecordStartAmbiguity(s, a, epoch, x, now).value;
      Undisturbed(s, s') && TopologyOk(s') && SamePlaces(s.tasks, s'.tasks)
  {
    QuietReshapes(s, RecordStartAmbiguity(s, a, epoch, x, now).value);
  }

  lemma PhysicalReshapes(s: Db, x: Id, state: ExecutionState, terminal: bool, quiescent: bool)
    requires TopologyOk(s) && RecordPhysicalOutcome(s, x, state, terminal, quiescent).Ok?
    ensures var s' := RecordPhysicalOutcome(s, x, state, terminal, quiescent).value;
      Undisturbed(s, s') && TopologyOk(s') && SamePlaces(s.tasks, s'.tasks)
  {
    PresenceKept(s.incarnations, Some(s.executions[x].incarnation), state, terminal, quiescent, false);
    QuietReshapes(s, RecordPhysicalOutcome(s, x, state, terminal, quiescent).value);
  }

  lemma PhysicalInv(s: Db, x: Id, state: ExecutionState, terminal: bool, quiescent: bool)
    requires Inv(s) && RecordPhysicalOutcome(s, x, state, terminal, quiescent).Ok?
    ensures Inv(RecordPhysicalOutcome(s, x, state, terminal, quiescent).value)
  {
    PhysicalReshapes(s, x, state, terminal, quiescent);
    StillInv(s, RecordPhysicalOutcome(s, x, state, terminal, quiescent).value);
  }

  lemma HeartbeatReshapes(s: Db, a: Id, epoch: nat, leaseSeconds: real, now: real)
    requires TopologyOk(s) && Heartbeat(s, a, epoch, leaseSeconds, now).Ok?
    ensures var s' := Heartbeat(s, a, epoch, leaseSeconds, now).value;
      Undisturbed(s, s') && TopologyOk(s') && SamePlaces(s.tasks, s'.tasks)
  {
    QuietReshapes(s, Heartbeat(s, a, epoch, leaseSeconds, now).value);
  }

  lemma HeartbeatInv(s: Db, a: Id, epoch: nat, leaseSeconds: real, now: real)
    requires Inv(s) && Heartbeat(s, a, epoch, leaseSeconds, now).Ok?
    ensures Inv(Heartbeat(s, a, epoch, leaseSeconds, now).value)
  {
    HeartbeatReshapes(s, a, epoch, leaseSeconds, now);
    StillInv(s, Heartbeat(s, a, epoch, leaseSeconds, now).value);
  }

  lemma RenewReshapes(s: Db, supervised: set<Id>, leaseSeconds: real, now: real)
    requires TopologyOk(s)
    ensures var s' := RenewActiveLeases(s, supervised, leaseSeconds, now);
      Undisturbed(s, s') && TopologyOk(s') && SamePlaces(s.tasks, s'.tasks)
  {
    QuietReshapes(s, RenewActiveLeases(s, supervised, leaseSeconds, now));
  }

  lemma RenewInv(s: Db, supervised: set<Id>, leaseSeconds: real, now: real)
    requires Inv(s)
    ensures Inv(RenewActiveLeases(s, supervised, leaseSeconds, now))
  {
    RenewReshapes(s, supervised, leaseSeconds, now);
    StillInv(s, RenewActiveLeases(s, supervised, leaseSeconds, now));
  }

  lemma PromoteRetryReshapes(s: Db, now: real)
    requires TopologyOk(s)
    ensures var s' := PromoteRetryWait(s, now); Undisturbed(s, s') && TopologyOk(s') && SamePlaces(s.tasks, s'.tasks)
  {
    QuietReshapes(s, PromoteRetryWait(s, now));
  }

  lemma PromoteRetryInv(s: Db, now: real)
    requires Inv(s)
    ensures Inv(PromoteRetryWait(s, now))
  {
    PromoteRetryReshapes(s, now);
    StillInv(s, PromoteRetryWait(s, now));
  }

  lemma VersionMoves(s: Db, g: Id, capsule: Capsule)
    requires AgentsOk(s.agents, s.partitions) && PromoteVersion(s, g, capsule).Ok?
    ensures var s' := PromoteVersion(s, g, capsule).value;
      && Moved(s, s') && AgentsOk(s'.agents, s'.partitions)
      && s'.incarnations == s.incarnations
  {
    match capsule
    case NoCapsule =>
    case GoodCapsule =>
      RowMoves(s, g, s.agents[g].(version := s.agents[g].version + 1), s.incarnations);
    case BadCapsule =>
  }

  lemma CheckpointInv(s: Db, a: Id, epoch: nat, capsule: Capsule, now: real)
    requires Inv(s) && PromoteCheckpoint(s, a, epoch, capsule, now).Ok?
    ensures Inv(PromoteCheckpoint(s, a, epoch, capsule, now).value)
  {
    InvAgentsOk(s);
    VersionMoves(s, s.attempts[a].agent, capsule);
    MovedInv(s, PromoteCheckpoint(s, a, epoch, capsule, now).value);
  }

  lemma AckResultInv(s: Db, r: Id)
    requires Inv(s) && AckResult(s, r).Ok?
    ensures Inv(AckResult(s, r).value)
  {
    var results := AckResult(s, r).value.results;
    assert ResultsMatch(s.tasks, results) by {
      AckedMatch(s.tasks, s.results, r);
    }
  }

  lemma AckedMatch(tasks: map<Id, Task>, results: map<Id, Result>, r: Id)
    requires ResultsMatch(tasks, results) && r in results
    ensures ResultsMatch(tasks, results[r := results[r].(acked := true)])
  {
    var results' := results[r := results[r].(acked := true)];
    forall t | t in tasks && tasks[t].state.Completed? ensures exists q :: q in results' && results'[q].task == t {
      var q :| q in results && results[q].task == t;
      assert q in results' && results'[q].task == t;
    }
  }
}
