/** A run that ends at the one unique index that refuses a call. */
module Restart {
  import opened Options
  import opened RowOrder
  import opened Tables
  import opened Topology
  import opened Work
  import opened Runs
  import TaskGraph
  import Guarantees

  // One partition, one agent, one task, one attempt and its execution.

  const HOME := PartitionSpec(0, 1, Resident, 0, 0, {})
  const JOB := TaskSpec(0, 0, [], 0, None, NoPreference, {}, Write, 0, 1, {}, 0.0, 0.0)

  const FOUNDED := EMPTY.(partitions := map[0 := Partition(1, Resident, 0, 0, {}, true, None, 1)], revision := 1)
  const STAFFED := FOUNDED.(agents :=
    map[0 := Agent(0, AgentState.Ready, None, {}, None, None, false, 0, Some(0.0), 0.0)])
  const WAITING := STAFFED.(batches := map[0 := BatchState.Active], tasks := map[0 := NewTask(JOB, 0, {}, 0.0)])
  const CLAIMED := WAITING.(
    attempts := map[0 := Attempt(0, 0, None, 1, 1, AttemptState.Active)],
    leases := map[0 := Lease(0, 1, LeaseState.Active, 1.0)],
    tasks := map[0 := NewTask(JOB, 0, {}, 0.0).(state := TaskState.Leased, current := Some(0), epoch := 1)],
    agents := map[0 := Agent(0, AgentState.Assigned, None, {}, Some(0), None, false, 0, None, 0.0)])

  lemma Founded()
    ensures UpsertPartition(EMPTY, HOME) == Ok(FOUNDED)
  {
  }

  lemma Staffed()
    ensures BirthAgent(FOUNDED, 0, 0, None, None, 0.0) == Ok(STAFFED)
  {
  }

  lemma Submitted()
    ensures SubmitBatch(STAFFED, 0, [JOB], 0.0) == Ok(WAITING)
  {
    var specs := [JOB];
    assert specs[..0] == [];
    assert NameIds(specs) == Ok(map[0 := 0]);
    assert BuildGraph(map[0 := 0], specs) == Ok(map[0 := []]);
    var graph: TaskGraph.Graph := map[0 := []];
    assert TaskGraph.Numbering(graph, map[0 := 0]);
    assert (set d | d in graph[0]) == {};
    assert InsertTasks(STAFFED.partitions, map[], graph, 0, specs, 0.0) == Ok(WAITING.tasks);
    assert !Repeats(graph);
  }

  lemma Selected()
    ensures ClaimSelected(WAITING, 0, 0, 0, 1.0, 0.0) == Ok(CLAIMED)
  {
    assert AttemptsOf(WAITING.attempts, 0) == {};
    var s := ClaimSelected(WAITING, 0, 0, 0, 1.0, 0.0).value;
    assert s.attempts == CLAIMED.attempts && s.leases == CLAIMED.leases;
    assert s.tasks == CLAIMED.tasks && s.agents == CLAIMED.agents;
  }

  lemma Offer()
    ensures 0 in OfferedRows(WAITING, 0, 0.0)
    ensures var rows := OfferedRows(WAITING, 0, 0.0); Least(rows, rows.Keys) == 0
  {
    var rows := OfferedRows(WAITING, 0, 0.0);
    assert 0 in rows;
    assert Least(rows, rows.Keys) in WAITING.tasks;
  }

  lemma Claimed()
    ensures ClaimNext(WAITING, 0, 0, 1.0, 0.0) == Ok((CLAIMED, Some(0)))
  {
    Offer();
    Selected();
    assert OfferedRows(WAITING, 0, 0.0) != map[];
  }

  lemma Started()
    ensures CreateExecution(CLAIMED, 0, 1, 0, false, 0, 0, 0.0).Ok?
    ensures var s := CreateExecution(CLAIMED, 0, 1, 0, false, 0, 0, 0.0).value;
      && Authority(s, 0, 1, 0.0) && s.executions.Keys == {0}
      && s.executions[0].attempt == 0 && s.executions[0].Live()
  {
    assert LiveIncarnations(CLAIMED.incarnations, 0) == {};
    assert ExecutionsOf(CLAIMED.executions, 0) == {};
  }

  lemma StaffedReachable()
    ensures Reachable(STAFFED)
  {
    assert Run(EMPTY, []) == EMPTY;
    Founded();
    Continues(EMPTY, Pool(Upsert(HOME)), 0.0);
    Staffed();
    Continues(FOUNDED, Pool(Birth(0, 0, None, None)), 0.0);
  }

  lemma WaitingReachable()
    ensures Reachable(WAITING)
  {
    StaffedReachable();
    Submitted();
    Continues(STAFFED, Working(Submit(0, [JOB])), 0.0);
  }

  lemma ClaimApplied()
    ensures Apply(WAITING, Working(ClaimFor(0, 0, 1.0)), 0.0) == Ok(CLAIMED)
  {
    Claimed();
  }

  lemma ClaimedReachable()
    ensures Reachable(CLAIMED)
  {
    WaitingReachable();
    ClaimApplied();
    Continues(WAITING, Working(ClaimFor(0, 0, 1.0)), 0.0);
  }

  lemma StartedReachable()
    ensures CreateExecution(CLAIMED, 0, 1, 0, false, 0, 0, 0.0).Ok?
    ensures Reachable(CreateExecution(CLAIMED, 0, 1, 0, false, 0, 0, 0.0).value)
  {
    ClaimedReachable();
    Started();
    Continues(CLAIMED, Working(Create(0, 1, 0, false, 0, 0)), 0.0);
  }

  /** After it, a report of failure and a second start are refused by the index alone. */
  lemma IndexRefuses()
    ensures exists s :: Reachable(s) && Guarantees.RefusedByIndex(s, 0, 1, 0, false, 1, 1, 0.0)
  {
    Started();
    StartedReachable();
    var s := CreateExecution(CLAIMED, 0, 1, 0, false, 0, 0, 0.0).value;
    Guarantees.FailedThenRestarted(s, 0, 1, 0, true, true, 0, false, 1, 1, 0.0);
    Continues(s, Working(Observe(0, ExecutionState.Failed, true, true)), 0.0);
    assert Guarantees.RefusedByIndex(RecordPhysicalOutcome(s, 0, ExecutionState.Failed, true, true).value,
                                     0, 1, 0, false, 1, 1, 0.0);
  }
}
