/** Submitting a batch keeps the whole invariant. */
module SubmitOps {
  import opened RowOrder
  import opened Tables
  import opened Topology
  import opened Work
  import opened Invariants
  import TaskGraph

  // ---------------------------------------------------------------- names, graph and rows

  function SpecIds(specs: seq<TaskSpec>): set<Id> {
    set i | 0 <= i < |specs| :: specs[i].id
  }

  lemma SpecIdsStep(specs: seq<TaskSpec>)
    requires specs != []
    ensures SpecIds(specs) == SpecIds(specs[..|specs| - 1]) + {specs[|specs| - 1].id}
  {
    var n := |specs| - 1;
    forall k | k in SpecIds(specs) ensures k in SpecIds(specs[..n]) + {specs[n].id} {
      var i :| 0 <= i < |specs| && specs[i].id == k;
      assert i < n ==> specs[..n][i].id == k;
    }
    forall k | k in SpecIds(specs[..n]) ensures k in SpecIds(specs) {
      var i :| 0 <= i < n && specs[..n][i].id == k;
      assert specs[i].id == k;
    }
    assert specs[n].id in SpecIds(specs);
  }

  lemma MapValues(m: map<Id, Id>, k: Id, v: Id)
    requires k !in m
    ensures m[k := v].Values == m.Values + {v}
  {
    var m' := m[k := v];
    assert m'[k] == v;
    forall w | w in m.Values ensures w in m'.Values {
      var j :| j in m && m[j] == w;
      assert m'[j] == w;
    }
  }

  lemma {:induction false} NamesCover(specs: seq<TaskSpec>)
    requires NameIds(specs).Ok?
    ensures NameIds(specs).value.Values == SpecIds(specs)
  {
    if specs != [] {
      var n := |specs| - 1;
      NamesCover(specs[..n]);
      SpecIdsStep(specs);
      MapValues(NameIds(specs[..n]).value, specs[n].name, specs[n].id);
    }
  }

  lemma {:induction false} DepsResolved(ids: map<Id, Id>, deps: seq<Id>)
    requires ResolveDeps(ids, deps).Ok?
    ensures forall d | d in ResolveDeps(ids, deps).value :: d in ids.Values
  {
    if deps != [] {
      DepsResolved(ids, deps[..|deps| - 1]);
    }
  }

  lemma {:induction false} GraphCovers(ids: map<Id, Id>, specs: seq<TaskSpec>)
    requires BuildGraph(ids, specs).Ok?
    ensures var graph := BuildGraph(ids, specs).value;
      graph.Keys == SpecIds(specs) && forall u, v | TaskGraph.Edge(graph, u, v) :: v in ids.Values
  {
    if specs != [] {
      var n := |specs| - 1;
      GraphCovers(ids, specs[..n]);
      SpecIdsStep(specs);
      DepsResolved(ids, specs[n].dependencies);
      var before := BuildGraph(ids, specs[..n]).value;
      forall u, v | TaskGraph.Edge(BuildGraph(ids, specs).value, u, v) ensures v in ids.Values {
        assert u != specs[n].id ==> TaskGraph.Edge(before, u, v);
      }
    }
  }

  /** A freshly inserted row. */
  ghost predicate FreshRow(task: Task, b: Id, deps: seq<Id>, parts: map<Id, Partition>) {
    && task.batch == b && task.current.None? && task.epoch == 0 && task.maxAttempts >= 1
    && (forall d :: d in task.deps <==> d in deps)
    && (if task.deps == {} then task.state.Queued? else task.state.Blocked?)
    && ActivePartition(parts, task.partition)
  }

  ghost predicate Inserted(tasks: map<Id, Task>, tasks': map<Id, Task>, graph: TaskGraph.Graph, b: Id, ids: set<Id>,
                           parts: map<Id, Partition>) {
    && tasks'.Keys == tasks.Keys + ids && tasks.Keys !! ids && ids <= graph.Keys
    && (forall t | t in tasks :: tasks'[t] == tasks[t])
    && (forall t | t in ids :: FreshRow(tasks'[t], b, graph[t], parts))
  }

  lemma {:induction false} RowsInserted(parts: map<Id, Partition>, tasks: map<Id, Task>, graph: TaskGraph.Graph, b: Id,
                                        specs: seq<TaskSpec>, now: real)
    requires InsertTasks(parts, tasks, graph, b, specs, now).Ok?
    ensures Inserted(tasks, InsertTasks(parts, tasks, graph, b, specs, now).value, graph, b, SpecIds(specs), parts)
  {
    if specs != [] {
      RowsInserted(parts, tasks, graph, b, specs[..|specs| - 1], now);
      SpecIdsStep(specs);
    }
  }

  // ---------------------------------------------------------------- table by table

  /** New tasks of a new batch that wait only for each other. */
  ghost predicate Submitted(tasks: map<Id, Task>, tasks': map<Id, Task>, graph: TaskGraph.Graph, b: Id, ids: set<Id>,
                            parts: map<Id, Partition>) {
    && Inserted(tasks, tasks', graph, b, ids, parts) && ids != {}
    && forall u, v | TaskGraph.Edge(graph, u, v) :: v in ids
  }

  lemma SubmittedFenced(tasks: map<Id, Task>, tasks': map<Id, Task>, graph: TaskGraph.Graph, b: Id, ids: set<Id>,
                        parts: map<Id, Partition>,
                        attempts: map<Id, Attempt>, leases: map<Id, Lease>, agents: map<Id, Agent>)
    requires Submitted(tasks, tasks', graph, b, ids, parts)
    requires Fenced(tasks, attempts, leases) && EpochsCount(tasks, attempts) && AgentsEngaged(tasks, attempts, agents)
    ensures Fenced(tasks', attempts, leases) && EpochsCount(tasks', attempts) && AgentsEngaged(tasks', attempts, agents)
    ensures Homes(tasks, agents) ==> Homes(tasks', agents)
  {
    forall a | a in attempts ensures AttemptFenced(tasks', attempts[a], leases[a], a) && attempts[a].task in tasks {
      assert AttemptFenced(tasks, attempts[a], leases[a], a);
    }
    forall t | t in tasks' ensures TaskFenced(tasks'[t], attempts, t) && |AttemptsOf(attempts, t)| == tasks'[t].epoch {
      if t in tasks {
        assert TaskFenced(tasks[t], attempts, t);
      } else {
        assert FreshRow(tasks'[t], b, graph[t], parts);
        assert AttemptsOf(attempts, t) == {};
      }
    }
    forall g | g in agents ensures AgentAssigned(tasks', attempts, agents[g], g) {
      assert AgentAssigned(tasks, attempts, agents[g], g);
    }
  }

  lemma SubmittedEscalated(tasks: map<Id, Task>, tasks': map<Id, Task>, graph: TaskGraph.Graph, b: Id, ids: set<Id>,
                           parts: map<Id, Partition>,
                           agents: map<Id, Agent>, escalations: map<Id, Escalation>)
    requires Submitted(tasks, tasks', graph, b, ids, parts) && Escalated(tasks, agents, escalations)
    ensures Escalated(tasks', agents, escalations)
  {
    forall k | k in escalations ensures EscalationSound(tasks', agents, escalations[k]) {
      assert EscalationSound(tasks, agents, escalations[k]);
    }
    forall t | t in tasks' && tasks'[t].state.Suspended? ensures HasOpen(escalations, t) {
      assert t !in tasks ==> FreshRow(tasks'[t], b, graph[t], parts);
    }
  }

  lemma SubmittedWriters(tasks: map<Id, Task>, tasks': map<Id, Task>, graph: TaskGraph.Graph, b: Id, ids: set<Id>,
                         parts: map<Id, Partition>,
                         attempts: map<Id, Attempt>, leases: map<Id, Lease>, executions: map<Id, Execution>,
                           escalations: map<Id, Escalation>,
                         incs: map<Id, Incarnation>)
    requires Submitted(tasks, tasks', graph, b, ids, parts) && Fenced(tasks, attempts, leases)
      && Physical(executions, attempts, incs)
    requires WritersHeld(tasks, attempts, executions, escalations)
    ensures WritersHeld(tasks', attempts, executions, escalations)
  {
    forall x | x in executions ensures WriterHeld(tasks', attempts, executions[x], escalations) {
      assert WriterHeld(tasks, attempts, executions[x], escalations) && ExecutionPhysical(executions[x], attempts);
      assert AttemptFenced(tasks, attempts[executions[x].attempt], leases[executions[x].attempt],
                           executions[x].attempt);
    }
  }

  lemma SubmittedDeps(tasks: map<Id, Task>, tasks': map<Id, Task>, graph: TaskGraph.Graph, b: Id, ids: set<Id>,
                      parts: map<Id, Partition>)
    requires Submitted(tasks, tasks', graph, b, ids, parts) && DepsSettled(tasks)
    ensures DepsSettled(tasks')
  {
    forall t | t in tasks' ensures TaskDeps(tasks', tasks'[t]) {
      if t in tasks {
        assert TaskDeps(tasks, tasks[t]);
        if tasks[t].state.Blocked? {
          var d :| d in tasks[t].deps && d in tasks && !tasks[d].state.Completed?;
          assert d in tasks' && !tasks'[d].state.Completed?;
        }
      } else {
        assert FreshRow(tasks'[t], b, graph[t], parts);
        forall d | d in tasks'[t].deps ensures d in ids && FreshRow(tasks'[d], b, graph[d], parts) {
          assert TaskGraph.Edge(graph, t, d);
        }
        if tasks'[t].deps != {} {
          var d :| d in tasks'[t].deps;
          assert d in tasks' && !tasks'[d].state.Completed?;
        }
      }
    }
  }

  /** The submitted graph's numbering extends the one of the tasks already there. */
  lemma SubmittedOrdered(tasks: map<Id, Task>, tasks': map<Id, Task>, graph: TaskGraph.Graph, b: Id, ids: set<Id>,
                         parts: map<Id, Partition>)
    requires Submitted(tasks, tasks', graph, b, ids, parts) && TaskGraph.Orderable(graph)
    requires DepsSettled(tasks) && DepsOrdered(tasks)
    ensures DepsOrdered(tasks')
  {
    var earlier :| Numbered(tasks, earlier);
    var added :| TaskGraph.Numbering(graph, added);
    var rank: map<Id, nat> := map t | t in earlier.Keys + added.Keys ::
      if t in ids && t in added then added[t] else if t in earlier then earlier[t] else 0;
    forall t, d | WaitsFor(tasks', t, d) ensures Lower(rank, d, t) {
      if t in tasks {
        assert WaitsFor(tasks, t, d) && TaskDeps(tasks, tasks[t]);
        assert Lower(earlier, d, t);
      } else {
        assert FreshRow(tasks'[t], b, graph[t], parts);
        assert TaskGraph.Edge(graph, t, d);
      }
    }
    assert Numbered(tasks', rank);
  }

  lemma SubmittedOld(tasks: map<Id, Task>, tasks': map<Id, Task>, graph: TaskGraph.Graph, b: Id, ids: set<Id>,
                     parts: map<Id, Partition>, c: Id)
    requires Submitted(tasks, tasks', graph, b, ids, parts) && c != b
    ensures BatchNext(tasks', c) == BatchNext(tasks, c) && (AllCompleted(tasks', c) <==> AllCompleted(tasks, c))
    ensures forall t | t in tasks' && tasks'[t].batch == c :: t in tasks
  {
    forall t | t in tasks' && tasks'[t].batch == c ensures t in tasks {
      assert t !in tasks ==> FreshRow(tasks'[t], b, graph[t], parts);
    }
    if SomeStopped(tasks, c) {
      var t :| t in tasks && tasks[t].batch == c && (tasks[t].state.Suspended? || tasks[t].state.Cancelled?);
      assert t in tasks' && tasks'[t] == tasks[t];
    }
  }

  lemma SubmittedNew(tasks: map<Id, Task>, tasks': map<Id, Task>, graph: TaskGraph.Graph, b: Id, ids: set<Id>,
                     parts: map<Id, Partition>)
    requires Submitted(tasks, tasks', graph, b, ids, parts) && forall t | t in tasks :: tasks[t].batch != b
    ensures BatchAgrees(tasks', b, BatchState.Active) && !AllCompleted(tasks', b)
  {
    var t :| t in ids;
    assert FreshRow(tasks'[t], b, graph[t], parts);
    forall u | u in tasks' && tasks'[u].batch == b ensures FreshRow(tasks'[u], b, graph[u], parts) {
    }
  }

  lemma SubmittedBatches(tasks: map<Id, Task>, tasks': map<Id, Task>, graph: TaskGraph.Graph, b: Id, ids: set<Id>,
                         parts: map<Id, Partition>,
                         batches: map<Id, BatchState>, outbox: map<Id, Event>)
    requires Submitted(tasks, tasks', graph, b, ids, parts) && b !in batches
    requires BatchesAgree(tasks, batches) && NoticesMatch(tasks, batches, outbox)
    ensures BatchesAgree(tasks', batches[b := BatchState.Active])
      && NoticesMatch(tasks', batches[b := BatchState.Active], outbox)
  {
    SubmittedNew(tasks, tasks', graph, b, ids, parts);
    var batches' := batches[b := BatchState.Active];
    forall t | t in tasks' ensures tasks'[t].batch in batches' {
      assert t !in tasks ==> FreshRow(tasks'[t], b, graph[t], parts);
    }
    forall c | c in batches'
      ensures BatchAgrees(tasks', c, batches'[c]) && (AllCompleted(tasks', c) <==> Notified(outbox, c)) {
      if c != b {
        assert BatchAgrees(tasks, c, batches[c]);
        SubmittedOld(tasks, tasks', graph, b, ids, parts, c);
        var t :| t in tasks && tasks[t].batch == c;
        assert t in tasks' && tasks'[t].batch == c;
      }
    }
  }

  lemma SubmittedResults(tasks: map<Id, Task>, tasks': map<Id, Task>, graph: TaskGraph.Graph, b: Id, ids: set<Id>,
                         parts: map<Id, Partition>,
                         results: map<Id, Result>)
    requires Submitted(tasks, tasks', graph, b, ids, parts) && ResultsMatch(tasks, results) && TasksPlaced(tasks, parts)
    ensures ResultsMatch(tasks', results) && TasksPlaced(tasks', parts)
  {
    forall t | t in tasks' && t !in tasks ensures FreshRow(tasks'[t], b, graph[t], parts) {
    }
  }

  // ---------------------------------------------------------------- submission

  lemma SubmitValue(s: Db, batch: Id, specs: seq<TaskSpec>, now: real) returns (graph: TaskGraph.Graph)
    requires SubmitBatch(s, batch, specs, now).Ok?
    ensures var s' := SubmitBatch(s, batch, specs, now).value;
      && batch !in s.batches && s' == s.(tasks := s'.tasks, batches := s.batches[batch := BatchState.Active])
      && TaskGraph.Orderable(graph) && Submitted(s.tasks, s'.tasks, graph, batch, SpecIds(specs), s.partitions)
  {
    var ids := NameIds(specs).value;
    graph := BuildGraph(ids, specs).value;
    NamesCover(specs);
    GraphCovers(ids, specs);
    RowsInserted(s.partitions, s.tasks, graph, batch, specs, now);
    assert specs[0].id in SpecIds(specs);
  }

  lemma SubmittedInv(s: Db, s': Db, batch: Id, graph: TaskGraph.Graph, ids: set<Id>)
    requires Inv(s) && batch !in s.batches
      && s' == s.(tasks := s'.tasks, batches := s.batches[batch := BatchState.Active])
    requires TaskGraph.Orderable(graph) && Submitted(s.tasks, s'.tasks, graph, batch, ids, s.partitions)
    ensures Inv(s')
  {
    SubmittedFenced(s.tasks, s'.tasks, graph, batch, ids, s.partitions, s.attempts, s.leases, s.agents);
    SubmittedEscalated(s.tasks, s'.tasks, graph, batch, ids, s.partitions, s.agents, s.escalations);
    SubmittedWriters(s.tasks, s'.tasks, graph, batch, ids, s.partitions, s.attempts, s.leases, s.executions,
                     s.escalations, s.incarnations);
    SubmittedDeps(s.tasks, s'.tasks, graph, batch, ids, s.partitions);
    SubmittedOrdered(s.tasks, s'.tasks, graph, batch, ids, s.partitions);
    SubmittedBatches(s.tasks, s'.tasks, graph, batch, ids, s.partitions, s.batches, s.outbox);
    SubmittedResults(s.tasks, s'.tasks, graph, batch, ids, s.partitions, s.results);
  }

  lemma SubmitInv(s: Db, batch: Id, specs: seq<TaskSpec>, now: real)
    requires Inv(s) && SubmitBatch(s, batch, specs, now).Ok?
    ensures Inv(SubmitBatch(s, batch, specs, now).value)
  {
    var graph := SubmitValue(s, batch, specs, now);
    SubmittedInv(s, SubmitBatch(s, batch, specs, now).value, batch, graph, SpecIds(specs));
  }
}
