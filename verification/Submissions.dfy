/** Every submitted task is stored as it was specified. */
module Submissions {
  import opened Options
  import opened RowOrder
  import opened Tables
  import opened Work
  import opened SubmitOps
  import TaskGraph

  /** A dependency names a task of the batch, or gives the id of one when no task has that name. */
  ghost predicate Refers(specs: seq<TaskSpec>, dependency: Id, d: Id) {
    || (exists j | 0 <= j < |specs| :: specs[j].name == dependency && specs[j].id == d)
    || ((forall j | 0 <= j < |specs| :: specs[j].name != dependency) && d == dependency && d in SpecIds(specs))
  }

  /** The row carries the values of its spec. */
  ghost predicate Carries(task: Task, spec: TaskSpec, specs: seq<TaskSpec>, batch: Id, now: real) {
    && task.batch == batch && task.partition == spec.partition && task.workstream == spec.workstream
    && task.continuity == spec.continuity && task.tags == spec.tags && task.mode == spec.mode
    && task.priority == spec.priority && task.maxAttempts == spec.maxAttempts
    && task.retryClasses == spec.retryClasses
    && task.baseBackoff == spec.baseBackoff && task.maxBackoff == spec.maxBackoff
    && task.nextEligible == None && task.current == None && task.epoch == 0 && task.created == now
    && task.state == (if spec.dependencies == [] then TaskState.Queued else TaskState.Blocked)
    && forall d :: d in task.deps <==>
      exists dependency | dependency in spec.dependencies :: Refers(specs, dependency, d)
  }

  ghost predicate Unlike(specs: seq<TaskSpec>) {
    forall i, j | 0 <= i < j < |specs| :: specs[i].name != specs[j].name && specs[i].id != specs[j].id
  }

  ghost predicate Named(specs: seq<TaskSpec>, ids: map<Id, Id>) {
    && (forall j | 0 <= j < |specs| :: specs[j].name in ids && ids[specs[j].name] == specs[j].id)
    && (forall name | name in ids :: exists j | 0 <= j < |specs| :: specs[j].name == name)
  }

  lemma NamedMore(specs: seq<TaskSpec>, ids: map<Id, Id>)
    requires specs != [] && specs[|specs| - 1].name !in ids && Named(specs[..|specs| - 1], ids)
    ensures Named(specs, ids[specs[|specs| - 1].name := specs[|specs| - 1].id])
  {
    var n := |specs| - 1;
    var ids' := ids[specs[n].name := specs[n].id];
    forall j | 0 <= j < |specs| ensures specs[j].name in ids' && ids'[specs[j].name] == specs[j].id {
      assert j < n ==> specs[..n][j] == specs[j];
    }
    forall name | name in ids' ensures exists j | 0 <= j < |specs| :: specs[j].name == name {
      if name == specs[n].name {
        assert specs[n].name == name;
      } else {
        var j :| 0 <= j < n && specs[..n][j].name == name;
        assert specs[j].name == name;
      }
    }
  }

  lemma UnlikeMore(specs: seq<TaskSpec>, ids: map<Id, Id>)
    requires specs != [] && Named(specs[..|specs| - 1], ids) && Unlike(specs[..|specs| - 1])
    requires specs[|specs| - 1].name !in ids && specs[|specs| - 1].id !in ids.Values
    ensures Unlike(specs)
  {
    var n := |specs| - 1;
    forall i, j | 0 <= i < j < |specs| ensures specs[i].name != specs[j].name && specs[i].id != specs[j].id {
      assert specs[..n][i] == specs[i] && ids[specs[i].name] in ids.Values;
      assert j < n ==> specs[..n][j] == specs[j];
    }
  }

  lemma {:induction false} NamesOf(specs: seq<TaskSpec>)
    requires NameIds(specs).Ok?
    ensures Named(specs, NameIds(specs).value) && Unlike(specs)
  {
    if specs != [] {
      var n := |specs| - 1;
      NamesOf(specs[..n]);
      NamedMore(specs, NameIds(specs[..n]).value);
      UnlikeMore(specs, NameIds(specs[..n]).value);
    }
  }

  lemma {:induction false} DepsOf(ids: map<Id, Id>, deps: seq<Id>)
    requires ResolveDeps(ids, deps).Ok?
    ensures var list := ResolveDeps(ids, deps).value;
      && |list| == |deps|
      && forall i | 0 <= i < |deps| ::
           if deps[i] in ids then list[i] == ids[deps[i]] else list[i] == deps[i] && deps[i] in ids.Values
  {
    if deps != [] {
      var n := |deps| - 1;
      DepsOf(ids, deps[..n]);
      forall i | 0 <= i < n ensures deps[..n][i] == deps[i] {
      }
    }
  }

  lemma {:induction false} GraphOf(ids: map<Id, Id>, specs: seq<TaskSpec>)
    requires BuildGraph(ids, specs).Ok? && Unlike(specs)
    ensures var graph := BuildGraph(ids, specs).value;
      forall j | 0 <= j < |specs| ::
        specs[j].id in graph && ResolveDeps(ids, specs[j].dependencies) == Ok(graph[specs[j].id])
  {
    if specs != [] {
      var n := |specs| - 1;
      assert Unlike(specs[..n]);
      GraphOf(ids, specs[..n]);
      forall j | 0 <= j < n ensures specs[..n][j] == specs[j] && specs[j].id != specs[n].id {
      }
    }
  }

  ghost predicate Rows(tasks: map<Id, Task>, specs: seq<TaskSpec>, graph: TaskGraph.Graph, batch: Id, now: real) {
    forall j | 0 <= j < |specs| :: specs[j].id in tasks && specs[j].id in graph
      && tasks[specs[j].id] == NewTask(specs[j], batch, (set d | d in graph[specs[j].id]), now)
  }

  lemma {:induction false} RowsOf(parts: map<Id, Partition>, tasks: map<Id, Task>, graph: TaskGraph.Graph, batch: Id,
                                  specs: seq<TaskSpec>, now: real)
    requires InsertTasks(parts, tasks, graph, batch, specs, now).Ok? && Unlike(specs)
    ensures Rows(InsertTasks(parts, tasks, graph, batch, specs, now).value, specs, graph, batch, now)
  {
    if specs != [] {
      var n := |specs| - 1;
      assert Unlike(specs[..n]);
      RowsOf(parts, tasks, graph, batch, specs[..n], now);
      forall j | 0 <= j < n ensures specs[..n][j] == specs[j] && specs[j].id != specs[n].id {
      }
    }
  }

  lemma RefersIs(specs: seq<TaskSpec>, ids: map<Id, Id>, dependency: Id, d: Id)
    requires Named(specs, ids) && Unlike(specs) && ids.Values == SpecIds(specs)
    requires dependency in ids || dependency in ids.Values
    ensures Refers(specs, dependency, d) <==> d == if dependency in ids then ids[dependency] else dependency
  {
    if dependency in ids {
      var j :| 0 <= j < |specs| && specs[j].name == dependency;
      assert ids[dependency] == specs[j].id;
    }
  }

  /** The stored dependencies are the ones the spec refers to. */
  lemma DepsRefer(specs: seq<TaskSpec>, ids: map<Id, Id>, dependencies: seq<Id>, list: seq<Id>, d: Id)
    requires Named(specs, ids) && Unlike(specs) && ids.Values == SpecIds(specs)
    requires ResolveDeps(ids, dependencies) == Ok(list)
    ensures d in list <==> exists dependency | dependency in dependencies :: Refers(specs, dependency, d)
  {
    DepsOf(ids, dependencies);
    if d in list {
      var i :| 0 <= i < |list| && list[i] == d;
      RefersIs(specs, ids, dependencies[i], d);
      assert dependencies[i] in dependencies;
    }
    if dependency :| dependency in dependencies && Refers(specs, dependency, d) {
      var i :| 0 <= i < |dependencies| && dependencies[i] == dependency;
      RefersIs(specs, ids, dependency, d);
      assert list[i] == d;
    }
  }

  lemma RowCarries(specs: seq<TaskSpec>, ids: map<Id, Id>, list: seq<Id>, j: nat, batch: Id, now: real)
    requires Named(specs, ids) && Unlike(specs) && ids.Values == SpecIds(specs) && j < |specs|
    requires ResolveDeps(ids, specs[j].dependencies) == Ok(list)
    ensures Carries(NewTask(specs[j], batch, (set d | d in list), now), specs[j], specs, batch, now)
  {
    var task := NewTask(specs[j], batch, (set d | d in list), now);
    DepsOf(ids, specs[j].dependencies);
    assert specs[j].dependencies != [] ==> list[0] in task.deps;
    forall d ensures d in task.deps <==>
      exists dependency | dependency in specs[j].dependencies :: Refers(specs, dependency, d) {
      DepsRefer(specs, ids, specs[j].dependencies, list, d);
    }
  }

  /** A committed submission: an ACTIVE batch, one row per spec that carries its values, and
      nothing else. */
  lemma SubmitCarries(s: Db, batch: Id, specs: seq<TaskSpec>, now: real)
    requires SubmitBatch(s, batch, specs, now).Ok?
    ensures var s' := SubmitBatch(s, batch, specs, now).value;
      && s' == s.(tasks := s'.tasks, batches := s.batches[batch := BatchState.Active])
      && s'.tasks.Keys == s.tasks.Keys + SpecIds(specs) && (forall t | t in s.tasks :: s'.tasks[t] == s.tasks[t])
      && (forall j | 0 <= j < |specs| :: specs[j].id !in s.tasks
            && Carries(s'.tasks[specs[j].id], specs[j], specs, batch, now))
  {
    var s' := SubmitBatch(s, batch, specs, now).value;
    var _ := SubmitValue(s, batch, specs, now);
    var ids := NameIds(specs).value;
    var graph := BuildGraph(ids, specs).value;
    NamesOf(specs);
    NamesCover(specs);
    GraphOf(ids, specs);
    RowsOf(s.partitions, s.tasks, graph, batch, specs, now);
    forall j | 0 <= j < |specs|
      ensures specs[j].id !in s.tasks && Carries(s'.tasks[specs[j].id], specs[j], specs, batch, now) {
      assert specs[j].id in SpecIds(specs);
      RowCarries(specs, ids, graph[specs[j].id], j, batch, now);
    }
  }
}
