/** What the invariant means for writers, held agents, dependencies, batches and the pool. */
module Safety {
  import opened Options
  import opened RowOrder
  import opened Tables
  import opened Topology
  import opened Work
  import opened Invariants
  import opened TopologyProofs
  import opened ReshapeProofs
  import ClaimOps

  // ---------------------------------------------------------------- writers

  predicate Quiet(e: Execution) {
    e.quiescent || e.isolated
  }

  ghost predicate WritersTracked(s: Db) {
    && Fenced(s.tasks, s.attempts, s.leases) && Physical(s.executions, s.attempts, s.incarnations)
    && WritersHeld(s.tasks, s.attempts, s.executions, s.escalations)
  }

  /** Nothing that ever ran for a waiting WRITE task can still be writing. */
  lemma WaitingWriterQuiet(s: Db, t: Id, x: Id)
    requires WritersTracked(s) && t in s.tasks && s.tasks[t].mode.Write? && !s.tasks[t].Held()
    requires !s.tasks[t].state.Suspended? && !s.tasks[t].state.Cancelled?
    requires x in s.executions && s.executions[x].task == t
    ensures Quiet(s.executions[x])
  {
    var a := s.executions[x].attempt;
    assert ExecutionPhysical(s.executions[x], s.attempts);
    assert AttemptFenced(s.tasks, s.attempts[a], s.leases[a], a);
    assert TaskFenced(s.tasks[t], s.attempts, t);
    assert WriterHeld(s.tasks, s.attempts, s.executions[x], s.escalations);
  }

  /** Nothing that ever ran for the task, if it writes, can still be writing. */
  ghost predicate Vacant(s: Db, t: Id) {
    t in s.tasks && (s.tasks[t].mode.Write? ==>
      forall x | x in s.executions && s.executions[x].task == t :: Quiet(s.executions[x]))
  }

  /** Either claim call joins a vacant task. */
  lemma ClaimedVacant(s: Db, s': Db, pair: Option<(Id, Id)>, a: Id, leaseSeconds: real, now: real)
    requires WritersTracked(s) && ClaimOps.ClaimResult(s, s', pair, a, leaseSeconds, now)
    ensures pair.Some? ==> Vacant(s, pair.value.0)
  {
    if pair.Some? && s.tasks[pair.value.0].mode.Write? {
      var t := pair.value.0;
      forall x | x in s.executions && s.executions[x].task == t ensures Quiet(s.executions[x]) {
        WaitingWriterQuiet(s, t, x);
      }
    }
  }

  /** While a writer may still write, its task is suspended and Root has been asked. */
  lemma UnsafeWriterSuspended(s: Db, x: Id)
    requires Inv(s) && x in s.executions && !Quiet(s.executions[x])
    requires s.executions[x].attempt in s.attempts && !s.attempts[s.executions[x].attempt].state.Active?
    requires s.executions[x].task in s.tasks && s.tasks[s.executions[x].task].mode.Write?
    requires !s.tasks[s.executions[x].task].state.Cancelled?
    ensures s.tasks[s.executions[x].task].state.Suspended? && HasHold(s.escalations, s.executions[x].task)
  {
    assert WriterHeld(s.tasks, s.attempts, s.executions[x], s.escalations);
  }

  // ---------------------------------------------------------------- the hold on an agent

  /** Suspended with nothing assigned, under exactly one hold, and fit for no task. */
  ghost predicate OutOfPlay(s: Db, k: Id)
    requires k in s.escalations
  {
    var g := s.escalations[k].agent;
    && g in s.agents && s.agents[g].state.Suspended? && s.agents[g].current.None?
    && (forall j | j in s.escalations && s.escalations[j].Hold() && s.escalations[j].agent == g :: j == k)
    && !HasActiveAttempt(s.attempts, g)
    && (forall t | t in s.tasks :: !Fits(s.tasks[t], s.agents[g]))
  }

  lemma HeldOutOfPlay(s: Db, k: Id)
    requires Escalated(s.tasks, s.agents, s.escalations) && AgentsEngaged(s.tasks, s.attempts, s.agents)
    requires k in s.escalations && s.escalations[k].Hold()
    ensures OutOfPlay(s, k)
  {
    var g := s.escalations[k].agent;
    assert EscalationSound(s.tasks, s.agents, s.escalations[k]);
    assert AgentAssigned(s.tasks, s.attempts, s.agents[g], g);
  }

  /** Neither revival nor the retirement of its partition gets around the hold. */
  lemma HeldRefused(s: Db, k: Id, target: Id, now: real)
    requires Escalated(s.tasks, s.agents, s.escalations) && k in s.escalations && s.escalations[k].Hold()
    ensures var g := s.escalations[k].agent;
      g in s.agents && ReviveAgent(s, g, target, now).Err? && RetirePartition(s, s.agents[g].partition, now).Err?
  {
    assert EscalationSound(s.tasks, s.agents, s.escalations[k]);
  }

  // ---------------------------------------------------------------- no dependency deadlock

  /** From a task that waits, follow what it waits for down to one that does not. */
  lemma {:induction false} SomebodyMoves(tasks: map<Id, Task>, rank: map<Id, nat>, b: Id, t: Id) returns (u: Id)
    requires DepsSettled(tasks) && Numbered(tasks, rank) && !SomeStopped(tasks, b)
    requires t in tasks && tasks[t].batch == b && !tasks[t].state.Completed?
    ensures u in tasks && tasks[u].batch == b && InProgress(tasks[u].state)
    decreases if t in rank then rank[t] else 0
  {
    if tasks[t].state.Blocked? {
      assert TaskDeps(tasks, tasks[t]);
      var d :| d in tasks[t].deps && d in tasks && !tasks[d].state.Completed?;
      assert WaitsFor(tasks, t, d);
      assert Lower(rank, d, t);
      u := SomebodyMoves(tasks, rank, b, d);
    } else {
      u := t;
    }
  }

  /** An ACTIVE batch always has a task that is queued, held or waiting to be retried. */
  lemma ActiveBatchMoves(s: Db, b: Id)
    requires Inv(s) && b in s.batches && s.batches[b].Active?
    ensures exists t :: t in s.tasks && s.tasks[t].batch == b && InProgress(s.tasks[t].state)
  {
    assert BatchAgrees(s.tasks, b, s.batches[b]);
    var t :| t in s.tasks && s.tasks[t].batch == b && !s.tasks[t].state.Completed?;
    var rank :| Numbered(s.tasks, rank);
    var u := SomebodyMoves(s.tasks, rank, b, t);
  }

  /** A task past BLOCKED has all it waited for; a BLOCKED one still lacks something. */
  lemma ReleasedExactly(s: Db, t: Id)
    requires Inv(s) && t in s.tasks && !s.tasks[t].state.Cancelled?
    ensures s.tasks[t].state.Blocked? <==>
      exists d :: d in s.tasks[t].deps && d in s.tasks && !s.tasks[d].state.Completed?
  {
    assert TaskDeps(s.tasks, s.tasks[t]);
  }

  // ---------------------------------------------------------------- batches, results, notices

  function Notices(outbox: map<Id, Event>, b: Id): set<Id> {
    set e | e in outbox && outbox[e] == BatchResultsReady(b)
  }

  /** Exactly one notice for a batch whose tasks all completed, none for any other. */
  lemma NoticeOnce(tasks: map<Id, Task>, batches: map<Id, BatchState>, outbox: map<Id, Event>, b: Id)
    requires NoticesMatch(tasks, batches, outbox) && b in batches
    ensures |Notices(outbox, b)| == if AllCompleted(tasks, b) then 1 else 0
  {
    if AllCompleted(tasks, b) {
      var e :| e in outbox && outbox[e] == BatchResultsReady(b);
      assert Notices(outbox, b) == {e};
    } else {
      assert Notices(outbox, b) == {};
    }
  }

  function ResultsOf(results: map<Id, Result>, t: Id): set<Id> {
    set r | r in results && results[r].task == t
  }

  lemma ResultOnce(tasks: map<Id, Task>, results: map<Id, Result>, t: Id)
    requires ResultsMatch(tasks, results) && t in tasks
    ensures |ResultsOf(results, t)| == if tasks[t].state.Completed? then 1 else 0
  {
    if tasks[t].state.Completed? {
      var r :| r in results && results[r].task == t;
      assert ResultsOf(results, t) == {r};
    } else {
      assert ResultsOf(results, t) == {};
    }
  }

  /** A live batch row is the function of its tasks that the recomputation computes. */
  lemma BatchBarrier(s: Db, b: Id)
    requires Inv(s) && b in s.batches
    ensures !s.batches[b].Cancelled? ==> s.batches[b] == BatchNext(s.tasks, b)
    ensures s.batches[b].Completed? ==> AllCompleted(s.tasks, b)
    ensures s.batches[b].Cancelled? ==> forall t | t in s.tasks && s.tasks[t].batch == b :: s.tasks[t].Terminal()
  {
    assert BatchAgrees(s.tasks, b, s.batches[b]);
  }

  // ---------------------------------------------------------------- topology

  /** Every nonterminal task is scheduled on an active partition, and every agent that
      is not retired is headed for one. */
  lemma TopologyClosed(s: Db)
    requires Inv(s)
    ensures forall t | t in s.tasks && !s.tasks[t].Terminal() :: ActivePartition(s.partitions, s.tasks[t].partition)
    ensures forall g | g in s.agents
      && !s.agents[g].state.Retired? :: ActivePartition(s.partitions, Desired(s.agents[g]))
    ensures forall p | p in s.partitions :: Canonical(s.partitions, p) != Err(MergeCycle)
  {
    forall g | g in s.agents ensures AgentPlaced(s.agents[g], s.partitions) {
    }
    forall p | p in s.partitions ensures Canonical(s.partitions, p) != Err(MergeCycle) {
      CanonicalNeverCycles(s.partitions, s.revision, p);
    }
  }

  /** A partition merged away points to one revised later, or to the active end of the chain. */
  lemma MergeChainOrdered(s: Db, p: Id)
    requires Inv(s) && p in s.partitions && s.partitions[p].mergedInto.Some?
    ensures var q := s.partitions[p].mergedInto.value;
      && !s.partitions[p].active && q in s.partitions && s.partitions[p].revision <= s.partitions[q].revision
      && (!s.partitions[q].active ==> s.partitions[p].revision < s.partitions[q].revision)
  {
    assert MergeOrdered(s.partitions, s.revision);
  }
}
