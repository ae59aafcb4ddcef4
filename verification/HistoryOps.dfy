/** Submitting, claiming and running only add to what is recorded. */
module HistoryOps {
  import opened Options
  import opened RowOrder
  import opened Tables
  import opened Work
  import opened Invariants
  import opened ReshapeProofs
  import opened QuietOps
  import opened ClaimOps
  import opened ExecutionOps
  import opened SubmitOps
  import opened History

  lemma ClaimsEvolve(s: Db, s': Db, t: Id, g: Id, a: Id, now: real)
    requires Claims(s, s', t, g, a) && a !in s.leases
    ensures Evolves(s, s', now, None, None)
  {
    forall u | u in s.tasks ensures TaskEvolves(s.tasks[u], s'.tasks[u], false) {
    }
  }

  lemma ClaimEvolves(s: Db, t: Id, g: Id, a: Id, leaseSeconds: real, now: real)
    requires Joinable(s, t, g) && s.tasks[t].current.None? && |AttemptsOf(s.attempts, t)| == s.tasks[t].epoch
    requires ClaimSelected(s, t, g, a, leaseSeconds, now).Ok?
    ensures Evolves(s, ClaimSelected(s, t, g, a, leaseSeconds, now).value, now, None, None)
  {
    ClaimOpens(s, t, g, a, leaseSeconds, now);
    ClaimsEvolve(s, ClaimSelected(s, t, g, a, leaseSeconds, now).value, t, g, a, now);
  }

  lemma ClaimResultEvolves(s: Db, s': Db, pair: Option<(Id, Id)>, a: Id, leaseSeconds: real, now: real)
    requires Fenced(s.tasks, s.attempts, s.leases) && EpochsCount(s.tasks, s.attempts)
    requires ClaimResult(s, s', pair, a, leaseSeconds, now)
    ensures Evolves(s, s', now, None, None)
  {
    match pair
    case None => EvolvesSelf(s, now, None, None);
    case Some((t, g)) =>
      IdleTask(s, t);
      ClaimEvolves(s, t, g, a, leaseSeconds, now);
  }

  lemma StartsEvolve(s: Db, s': Db, a: Id, x: Id, i: Id, now: real)
    requires Starts(s, s', a, x, i)
    ensures Evolves(s, s', now, None, None)
  {
  }

  lemma CreateEvolves(s: Db, a: Id, epoch: nat, target: Id, isolated: bool, x: Id, drawn: Id, now: real)
    requires Physical(s.executions, s.attempts, s.incarnations)
      && CreateExecution(s, a, epoch, target, isolated, x, drawn, now).Ok?
    ensures Evolves(s, CreateExecution(s, a, epoch, target, isolated, x, drawn, now).value, now, None, None)
  {
    CreateValue(s, a, epoch, target, isolated, x, drawn, now);
    ChosenOwned(s, a, target, drawn);
    var (incs, i) := ChooseIncarnation(s, a, target, drawn).value;
    RowsStart(s, a, incs, i, target, isolated, x);
    StartsEvolve(s, StartedRows(s, a, incs, i, target, isolated, x), a, x, i, now);
  }

  lemma SubmitEvolves(s: Db, batch: Id, specs: seq<TaskSpec>, now: real)
    requires SubmitBatch(s, batch, specs, now).Ok?
    ensures Evolves(s, SubmitBatch(s, batch, specs, now).value, now, None, None)
  {
    var graph := SubmitValue(s, batch, specs, now);
    var s' := SubmitBatch(s, batch, specs, now).value;
    forall t | t in s'.tasks && t !in s.tasks ensures Slack(s'.tasks[t]) >= 0 {
      assert FreshRow(s'.tasks[t], batch, graph[t], s.partitions);
    }
  }

  lemma ConfirmHonest(s: Db, a: Id, epoch: nat, x: Id, leaseSeconds: real, now: real)
    requires ConfirmRunning(s, a, epoch, x, leaseSeconds, now).Ok?
    ensures LeasesHonest(s.leases, ConfirmRunning(s, a, epoch, x, leaseSeconds, now).value.leases, now)
  {
  }

  lemma ConfirmEvolves(s: Db, a: Id, epoch: nat, x: Id, leaseSeconds: real, now: real)
    requires ConfirmRunning(s, a, epoch, x, leaseSeconds, now).Ok?
    requires s.tasks[s.attempts[a].task].Held() && TopologyOk(s)
    ensures Evolves(s, ConfirmRunning(s, a, epoch, x, leaseSeconds, now).value, now, None, None)
  {
    ConfirmReshapes(s, a, epoch, x, leaseSeconds, now);
    ConfirmHonest(s, a, epoch, x, leaseSeconds, now);
    UndisturbedEvolves(s, ConfirmRunning(s, a, epoch, x, leaseSeconds, now).value, now);
  }

  lemma AmbiguityEvolves(s: Db, a: Id, epoch: nat, x: Id, now: real)
    requires TopologyOk(s) && RecordStartAmbiguity(s, a, epoch, x, now).Ok?
    ensures Evolves(s, RecordStartAmbiguity(s, a, epoch, x, now).value, now, None, None)
  {
    AmbiguityReshapes(s, a, epoch, x, now);
    UndisturbedEvolves(s, RecordStartAmbiguity(s, a, epoch, x, now).value, now);
  }

  lemma ObserveEvolves(s: Db, x: Id, state: ExecutionState, terminal: bool, quiescent: bool, now: real)
    requires TopologyOk(s) && RecordPhysicalOutcome(s, x, state, terminal, quiescent).Ok?
    ensures Evolves(s, RecordPhysicalOutcome(s, x, state, terminal, quiescent).value, now, None, None)
  {
    PhysicalReshapes(s, x, state, terminal, quiescent);
    UndisturbedEvolves(s, RecordPhysicalOutcome(s, x, state, terminal, quiescent).value, now);
  }

  lemma HeartbeatEvolves(s: Db, a: Id, epoch: nat, leaseSeconds: real, now: real)
    requires TopologyOk(s) && Heartbeat(s, a, epoch, leaseSeconds, now).Ok?
    ensures Evolves(s, Heartbeat(s, a, epoch, leaseSeconds, now).value, now, None, None)
  {
    HeartbeatReshapes(s, a, epoch, leaseSeconds, now);
    UndisturbedEvolves(s, Heartbeat(s, a, epoch, leaseSeconds, now).value, now);
  }

  lemma RenewEvolves(s: Db, supervised: set<Id>, leaseSeconds: real, now: real)
    requires TopologyOk(s)
    ensures Evolves(s, RenewActiveLeases(s, supervised, leaseSeconds, now), now, None, None)
  {
    RenewReshapes(s, supervised, leaseSeconds, now);
    UndisturbedEvolves(s, RenewActiveLeases(s, supervised, leaseSeconds, now), now);
  }

  lemma CheckpointEvolves(s: Db, a: Id, epoch: nat, capsule: Capsule, now: real)
    requires PromoteCheckpoint(s, a, epoch, capsule, now).Ok?
    ensures Evolves(s, PromoteCheckpoint(s, a, epoch, capsule, now).value, now, None, None)
  {
    EvolvesSelf(s, now, None, None);
  }

  lemma PromoteRetryEvolves(s: Db, now: real)
    requires TopologyOk(s)
    ensures Evolves(s, PromoteRetryWait(s, now), now, None, None)
  {
    PromoteRetryReshapes(s, now);
    UndisturbedEvolves(s, PromoteRetryWait(s, now), now);
  }

  lemma AckResultEvolves(s: Db, r: Id, now: real)
    requires AckResult(s, r).Ok?
    ensures Evolves(s, AckResult(s, r).value, now, None, None)
  {
    EvolvesSelf(s, now, None, None);
  }
}
