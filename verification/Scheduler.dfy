/** The Scheduler as it is written: an object over its database, with methods that
    change rows statement by statement and roll back when a statement refuses. */
module SchedulerCore {
  import opened Options
  import opened RowOrder
  import opened Tables
  import T = Topology
  import W = Work
  import TaskGraph
  import opened Invariants
  import opened History
  import TopologyOps
  import QuietOps
  import ClaimOps
  import ClaimChoice
  import ExecutionOps
  import SubmitOps
  import SettleOps
  import CancelOps
  import ResolveOps
  import HistoryOps
  import PoolExact
  import Runs
  import Safety
  import Failures
  import Finishing
  import Resolutions
  import Leases
  import Submissions
  import Witnessed

  /** What a statement sequence promises: the specified tables, or the specified error. */
  ghost predicate Did(spec: Outcome<Db>, r: Outcome<()>, after: Db) {
    match spec
    case Ok(v) => r.Ok? && after == v
    case Err(e) => r == Err(e)
  }

  /** What a transaction promises: on an error the tables are as before. */
  ghost predicate Committed(spec: Outcome<Db>, r: Outcome<()>, before: Db, after: Db) {
    match spec
    case Ok(v) => r.Ok? && after == v
    case Err(e) => r == Err(e) && after == before
  }

  // A submission that fails on a prefix fails as a whole.

  lemma {:induction false} NamesFail(specs: seq<W.TaskSpec>, i: nat)
    requires i <= |specs| && W.NameIds(specs[..i]).Err?
    ensures W.NameIds(specs) == W.NameIds(specs[..i])
    decreases |specs| - i
  {
    if i < |specs| {
      assert specs[..i + 1][..i] == specs[..i];
      NamesFail(specs, i + 1);
    } else {
      assert specs[..i] == specs;
    }
  }

  lemma {:induction false} DepsFail(ids: map<Id, Id>, deps: seq<Id>, i: nat)
    requires i <= |deps| && W.ResolveDeps(ids, deps[..i]).Err?
    ensures W.ResolveDeps(ids, deps) == W.ResolveDeps(ids, deps[..i])
    decreases |deps| - i
  {
    if i < |deps| {
      assert deps[..i + 1][..i] == deps[..i];
      DepsFail(ids, deps, i + 1);
    } else {
      assert deps[..i] == deps;
    }
  }

  lemma {:induction false} GraphFails(ids: map<Id, Id>, specs: seq<W.TaskSpec>, i: nat)
    requires i <= |specs| && W.BuildGraph(ids, specs[..i]).Err?
    ensures W.BuildGraph(ids, specs) == W.BuildGraph(ids, specs[..i])
    decreases |specs| - i
  {
    if i < |specs| {
      assert specs[..i + 1][..i] == specs[..i];
      GraphFails(ids, specs, i + 1);
    } else {
      assert specs[..i] == specs;
    }
  }

  lemma {:induction false} InsertFails(parts: map<Id, Partition>, tasks: map<Id, Task>, graph: TaskGraph.Graph,
                                       batch: Id,
                                       specs: seq<W.TaskSpec>, now: real, i: nat)
    requires i <= |specs| && W.InsertTasks(parts, tasks, graph, batch, specs[..i], now).Err?
    ensures W.InsertTasks(parts, tasks, graph, batch, specs, now)
      == W.InsertTasks(parts, tasks, graph, batch, specs[..i], now)
    decreases |specs| - i
  {
    if i < |specs| {
      assert specs[..i + 1][..i] == specs[..i];
      InsertFails(parts, tasks, graph, batch, specs, now, i + 1);
    } else {
      assert specs[..i] == specs;
    }
  }

  /** Task names to ids, each used once. */
  method NameTasks(specs: seq<W.TaskSpec>) returns (r: Outcome<map<Id, Id>>)
    ensures r == W.NameIds(specs)
  {
    var ids: map<Id, Id> := map[];
    for i := 0 to |specs|
      invariant W.NameIds(specs[..i]) == Ok(ids)
    {
      assert specs[..i + 1][..i] == specs[..i];
      if specs[i].name in ids || specs[i].id in ids.Values {
        NamesFail(specs, i + 1);
        return Err(BadValue);
      }
      ids := ids[specs[i].name := specs[i].id];
    }
    assert specs[..|specs|] == specs;
    return Ok(ids);
  }

  method ResolveNames(ids: map<Id, Id>, deps: seq<Id>) returns (r: Outcome<seq<Id>>)
    ensures r == W.ResolveDeps(ids, deps)
  {
    var resolved: seq<Id> := [];
    for i := 0 to |deps|
      invariant W.ResolveDeps(ids, deps[..i]) == Ok(resolved)
    {
      assert deps[..i + 1][..i] == deps[..i];
      if deps[i] in ids {
        resolved := resolved + [ids[deps[i]]];
      } else if deps[i] in ids.Values {
        resolved := resolved + [deps[i]];
      } else {
        DepsFail(ids, deps, i + 1);
        return Err(BadValue);
      }
    }
    assert deps[..|deps|] == deps;
    return Ok(resolved);
  }

  method DependencyGraph(ids: map<Id, Id>, specs: seq<W.TaskSpec>) returns (r: Outcome<TaskGraph.Graph>)
    ensures r == W.BuildGraph(ids, specs)
  {
    var graph: TaskGraph.Graph := map[];
    for i := 0 to |specs|
      invariant W.BuildGraph(ids, specs[..i]) == Ok(graph)
    {
      assert specs[..i + 1][..i] == specs[..i];
      var deps := ResolveNames(ids, specs[i].dependencies);
      if deps.Err? {
        GraphFails(ids, specs, i + 1);
        return Err(deps.error);
      }
      graph := graph[specs[i].id := deps.value];
    }
    assert specs[..|specs|] == specs;
    return Ok(graph);
  }

  class Scheduler {
    var db: Db

    /** What every call finds and leaves. */
    ghost predicate Valid()
      reads this
    {
      Lawful(db)
    }

    constructor ()
      ensures db == EMPTY && Valid()
    {
      db := EMPTY;
      new;
      Runs.EmptyInv();
      LawfulIff(db);
    }

    /** The end of `Database.transaction`: COMMIT, or ROLLBACK to where it began. */
    method Finish(r: Outcome<()>, begun: Db)
      modifies this
      ensures db == if r.Ok? then old(db) else begun
    {
      if r.Err? {
        db := begun;
      }
    }

    // -------------------------------------------------------------- cutover

    method CanonicalPartition(name: Id) returns (r: Outcome<Id>)
      ensures r == T.Canonical(db.partitions, name)
    {
      var visited: set<Id> := {};
      var current := name;
      while current !in visited
        invariant T.Resolve(db.partitions, current, visited) == T.Canonical(db.partitions, name)
        invariant visited <= db.partitions.Keys
        decreases db.partitions.Keys - visited
      {
        if current !in db.partitions {
          return Err(MissingPartition);
        }
        if db.partitions[current].active {
          return Ok(current);
        }
        if db.partitions[current].mergedInto.None? {
          return Err(RetiredPartition);
        }
        visited := visited + {current};
        current := db.partitions[current].mergedInto.value;
      }
      return Err(MergeCycle);
    }

    /** The joined rows of `_unsafe_cross_target_execution`. */
    static function CrossTarget(s: Db, g: Id, target: Id): set<Id> {
      set x | x in s.executions && s.executions[x].incarnation in s.incarnations
              && s.incarnations[s.executions[x].incarnation].agent == g
              && s.executions[x].Live() && s.executions[x].target != target
    }

    method UnsafeCrossTarget(g: Id, target: Id, now: real) returns (unsafe: bool)
      ensures unsafe == T.UnsafeElsewhere(db, g, target, now)
    {
      var rows := T.ById(CrossTarget(db, g, target));
      for i := 0 to |rows|
        invariant forall x | x in rows[..i] :: x in db.executions && T.ClosedSafely(db, x, now)
      {
        assert rows[i] in rows;
        if !T.ClosedSafely(db, rows[i], now) {
          return true;
        }
      }
      forall x | x in CrossTarget(db, g, target) ensures T.ClosedSafely(db, x, now) {
        assert x in rows[..|rows|];
      }
      return false;
    }

    method CommitPartitionCutover(g: Id, name: Id, now: real) returns (r: Outcome<()>)
      requires g in db.agents
      modifies this
      ensures Did(T.CommitCutover(old(db), g, name, now), r, db)
      ensures r.Ok? ==> g in db.agents
    {
      var t :- CanonicalPartition(name);
      if t !in db.partitions {
        return Err(NotFound);
      }
      if T.HasActiveAttempt(db.attempts, g) {
        return Err(InvalidTransition);
      }
      var target := db.partitions[t].target;
      var unsafe := UnsafeCrossTarget(g, target, now);
      if unsafe {
        return Err(InvalidTransition);
      }
      db := db.(incarnations := T.FenceOff(db.incarnations, g, Some(target)));
      db := db.(agents := db.agents[g := db.agents[g].(partition := t, pending := None, retire := false)]);
      return Ok(());
    }

    method RequestPartitionCutover(g: Id, name: Id, now: real) returns (r: Outcome<()>)
      requires g in db.agents
      modifies this
      ensures Did(T.RequestCutover(old(db), g, name, now), r, db)
      ensures r.Ok? ==> g in db.agents
    {
      var t :- CanonicalPartition(name);
      if t !in db.partitions {
        return Err(NotFound);
      }
      var unsafe := UnsafeCrossTarget(g, db.partitions[t].target, now);
      if unsafe && db.agents[g].state.Suspended? && db.agents[g].current.None? {
        db := db.(agents := db.agents[g := db.agents[g].(pending := Some(t))]);
        return Ok(());
      }
      r := CommitPartitionCutover(g, t, now);
    }

    method RetireLogicalAgent(g: Id)
      requires g in db.agents
      modifies this
      ensures db == T.RetireAgent(old(db), g)
    {
      db := db.(incarnations := T.FenceOff(db.incarnations, g, None));
      db := db.(agents := db.agents[g := db.agents[g].(state := AgentState.Retired, current := None, pending := None,
                                                       retire := false, available := None)]);
    }

    method ReleaseAgent(g: Id, now: real) returns (r: Outcome<()>)
      modifies this
      ensures Did(T.ReleaseAgent(old(db), g, now), r, db)
    {
      if g !in db.agents {
        return Err(NotFound);
      }
      if db.agents[g].retire {
        RetireLogicalAgent(g);
        return Ok(());
      }
      var _ :- CommitPartitionCutover(g, if db.agents[g].pending.Some? then db.agents[g].pending.value
        else db.agents[g].partition, now);
      var home := db.agents[g].partition;
      if home !in db.partitions {
        return Err(NotFound);
      }
      if db.partitions[home].retention.Ephemeral? {
        RetireLogicalAgent(g);
        return Ok(());
      }
      db := db.(agents :=
        db.agents[g := db.agents[g].(state := AgentState.Ready, current := None, pending := None,
                                     available := Some(now))]);
      return Ok(());
    }

    // -------------------------------------------------------------- partitions

    method UpsertSteps(spec: T.PartitionSpec) returns (r: Outcome<()>)
      modifies this
      ensures Committed(T.UpsertPartition(old(db), spec), r, old(db), db)
    {
      if spec.desired < 0 {
        return Err(BadValue);
      }
      if spec.name in db.partitions {
        var p := db.partitions[spec.name];
        if !p.active {
          return Err(InvalidTransition);
        }
        if p.retention != spec.retention || p.target != spec.target || p.profile != spec.profile
          || p.tags != spec.tags {
          return Err(InvalidTransition);
        }
        if p.desired != spec.desired {
          return Err(InvalidTransition);
        }
        return Ok(());
      }
      db := db.(revision := db.revision + 1);
      db := db.(partitions :=
        db.partitions[spec.name := Partition(spec.desired, spec.retention, spec.target, spec.profile,
                                                                   spec.tags, true, None, db.revision)]);
      return Ok(());
    }

    method ResizeSteps(name: Id, desired: int) returns (r: Outcome<()>)
      modifies this
      ensures Committed(T.ResizePartition(old(db), name, desired), r, old(db), db)
    {
      if desired < 0 {
        return Err(BadValue);
      }
      if !T.ActivePartition(db.partitions, name) {
        return Err(NotFound);
      }
      db := db.(revision := db.revision + 1);
      db := db.(partitions := db.partitions[name := db.partitions[name].(desired := desired, revision := db.revision)]);
      return Ok(());
    }

    method BirthSteps(id: Id, name: Id, workstream: Option<Id>, tags: Option<set<Id>>, now: real)
      returns (r: Outcome<()>)
      modifies this
      ensures Committed(T.BirthAgent(old(db), id, name, workstream, tags, now), r, old(db), db)
    {
      if !T.ActivePartition(db.partitions, name) {
        return Err(NotFound);
      }
      if id in db.agents {
        return Err(Integrity);
      }
      var effective := if tags.Some? then tags.value else db.partitions[name].tags;
      db := db.(agents :=
        db.agents[id := Agent(name, AgentState.Ready, workstream, effective, None, None, false, 0, Some(now), now)]);
      return Ok(());
    }

    // -------------------------------------------------------------- reconciliation

    method BirthMany(name: Id, n: nat, born: nat, draw: nat -> Id, now: real) returns (r: Outcome<()>)
      modifies this
      ensures Did(T.BirthEach(old(db), name, n, born, draw, now), r, db)
    {
      for i := 0 to n
        invariant T.BirthEach(db, name, n - i, born + i, draw, now) == T.BirthEach(old(db), name, n, born, draw, now)
      {
        var _ :- BirthSteps(draw(born + i), name, None, None, now);
      }
      return Ok(());
    }

    method ShedMany(list: seq<Id>)
      modifies this
      ensures db == T.ShedEach(old(db), list)
    {
      for i := 0 to |list|
        invariant T.ShedEach(db, list[i..]) == T.ShedEach(old(db), list)
      {
        var g := list[i];
        assert list[i..][0] == g && list[i..][1..] == list[i + 1..];
        if g in db.agents {
          if T.Idle(db.agents[g]) {
            RetireLogicalAgent(g);
          } else {
            db := db.(agents := db.agents[g := db.agents[g].(state := AgentState.Draining, retire := true)]);
          }
        }
      }
    }

    /** One partition: births for a deficit, or the first in order leave for an excess. */
    method ReconcileOne(name: Id, born: nat, draw: nat -> Id, now: real) returns (r: Outcome<nat>)
      modifies this
      ensures match T.ReconcileNext(old(db), name, born, draw, now)
        case Ok((s, next)) => r == Ok(next) && db == s
        case Err(e) => r == Err(e)
    {
      if name !in db.partitions {
        return Err(NotFound);
      }
      var members := T.Members(db.agents, name);
      var deficit := db.partitions[name].desired - |members|;
      if deficit >= 0 {
        assert deficit == T.BornIn(db, name) && T.ExcessIn(db, name) == 0;
        var _ :- BirthMany(name, deficit, born, draw, now);
        return Ok(born + deficit);
      }
      assert -deficit == T.ExcessIn(db, name) && T.BornIn(db, name) == 0;
      var candidates := Listing(T.ExcessRows(db.agents, members));
      ShedMany(candidates[..-deficit]);
      return Ok(born);
    }

    method ReleaseMany(list: seq<Id>, now: real) returns (r: Outcome<()>)
      modifies this
      ensures Did(T.ReleaseEach(old(db), list, now), r, db)
    {
      for i := 0 to |list|
        invariant T.ReleaseEach(db, list[i..], now) == T.ReleaseEach(old(db), list, now)
      {
        assert list[i..][0] == list[i] && list[i..][1..] == list[i + 1..];
        var _ :- ReleaseAgent(list[i], now);
      }
      return Ok(());
    }

    method ReconcileMany(names: seq<Id>, draw: nat -> Id, now: real) returns (r: Outcome<()>)
      modifies this
      ensures Did(T.ReconcileEach(old(db), names, 0, draw, now), r, db)
    {
      var born := 0;
      for i := 0 to |names|
        invariant T.ReconcileEach(db, names[i..], born, draw, now) == T.ReconcileEach(old(db), names, 0, draw, now)
      {
        assert names[i..][0] == names[i] && names[i..][1..] == names[i + 1..];
        born :- ReconcileOne(names[i], born, draw, now);
      }
      return Ok(());
    }

    method ReconcileSteps(draw: nat -> Id, now: real) returns (r: Outcome<()>)
      modifies this
      ensures Did(T.ReconcilePool(old(db), draw, now), r, db)
    {
      var _ :- ReleaseMany(T.IdleDrains(db.agents), now);
      r := ReconcileMany(T.ById(T.ActiveNames(db.partitions)), draw, now);
    }

    /** The inner loop of `ensure_task_consumers`. */
    method HasConsumer(t: Id) returns (compatible: bool)
      requires t in db.tasks
      ensures compatible == W.Served(db, t)
    {
      var task := db.tasks[t];
      var ready := T.ById(set g | g in db.agents && db.agents[g].partition == task.partition
                          && db.agents[g].state.Ready?);
      for i := 0 to |ready|
        invariant forall g | g in ready[..i] :: g in db.agents && !W.Serves(task, db.agents[g])
      {
        assert ready[i] in ready;
        if W.Serves(task, db.agents[ready[i]]) {
          return true;
        }
      }
      assert ready[..|ready|] == ready;
      return false;
    }

    method EnsureSteps(draw: nat -> Id, now: real) returns (r: Outcome<()>)
      modifies this
      ensures Did(W.EnsureTaskConsumers(old(db), draw, now), r, db)
    {
      var list := Listing(W.QueuedRows(db));
      var born := 0;
      for i := 0 to |list|
        invariant W.ServeEach(db, list[i..], born, draw, now) == W.ServeEach(old(db), list, 0, draw, now)
      {
        var t := list[i];
        assert list[i..][0] == t && list[i..][1..] == list[i + 1..];
        if t in db.tasks {
          var compatible := HasConsumer(t);
          if !compatible && T.ActivePartition(db.partitions, db.tasks[t].partition) {
            var tags := db.partitions[db.tasks[t].partition].tags + db.tasks[t].tags;
            var _ :- BirthSteps(draw(born), db.tasks[t].partition, db.tasks[t].workstream, Some(tags), now);
            born := born + 1;
          }
        }
      }
      return Ok(());
    }

    // -------------------------------------------------------------- moves

    method MoveAgentSteps(g: Id, name: Id, now: real) returns (r: Outcome<()>)
      modifies this
      ensures Did(T.MoveAgent(old(db), g, name, now), r, db)
    {
      if g !in db.agents || !T.ActivePartition(db.partitions, name) {
        return Err(NotFound);
      }
      var agent := db.agents[g];
      if agent.state.Retired? {
        return Err(InvalidTransition);
      }
      if agent.state.Assigned? || agent.current.Some? {
        db := db.(agents := db.agents[g := db.agents[g].(pending := Some(name))]);
      } else {
        var _ :- RequestPartitionCutover(g, name, now);
        var next := if agent.state.Draining? then AgentState.Ready else agent.state;
        db := db.(agents := db.agents[g := T.ArrivedRow(db.agents[g], next, now)]);
      }
      return Ok(());
    }

    method MoveOne(g: Id, target: Id, now: real) returns (r: Outcome<()>)
      requires g in db.agents
      modifies this
      ensures Did(T.MoveOne(old(db), g, target, now), r, db)
    {
      var agent := db.agents[g];
      if agent.current.Some? || agent.state.Assigned? {
        db := db.(agents :=
          db.agents[g := agent.(state := AgentState.Draining, pending := Some(target), available := None)]);
      } else {
        var _ :- RequestPartitionCutover(g, target, now);
        if agent.state.Draining? {
          db := db.(agents := db.agents[g := db.agents[g].(state := AgentState.Ready, available := Some(now))]);
        }
      }
      return Ok(());
    }

    method MoveMany(list: seq<Id>, target: Id, now: real) returns (r: Outcome<()>)
      modifies this
      ensures Did(T.MoveEach(old(db), list, target, now), r, db)
    {
      for i := 0 to |list|
        invariant T.MoveEach(db, list[i..], target, now) == T.MoveEach(old(db), list, target, now)
      {
        assert list[i..][0] == list[i] && list[i..][1..] == list[i + 1..];
        if list[i] !in db.agents {
          return Err(NotFound);
        }
        var _ :- MoveOne(list[i], target, now);
      }
      return Ok(());
    }

    method MoveCapacitySteps(source: Id, target: Id, count: int, now: real) returns (r: Outcome<()>)
      modifies this
      ensures Did(T.MoveCapacity(old(db), source, target, count, now), r, db)
    {
      if source == target || count <= 0 {
        return Err(BadValue);
      }
      if !T.ActivePartition(db.partitions, source) || !T.ActivePartition(db.partitions, target) {
        return Err(NotFound);
      }
      if count > db.partitions[source].desired {
        return Err(InvalidTransition);
      }
      var members := Listing(T.MoveRows(db.agents, source));
      db := db.(revision := db.revision + 1);
      db := db.(partitions :=
        db.partitions[source := db.partitions[source].(desired := db.partitions[source].desired - count,
                                                       revision := db.revision)]);
      db := db.(partitions :=
        db.partitions[target := db.partitions[target].(desired := db.partitions[target].desired + count,
                                                       revision := db.revision)]);
      assert db == T.Shifted(old(db), source, target, count);
      r := MoveMany(members[..if count <= |members| then count else |members|], target, now);
    }

    // -------------------------------------------------------------- merge

    method MergeOne(g: Id, source: Id, target: Id, now: real) returns (r: Outcome<()>)
      requires g in db.agents
      modifies this
      ensures Did(T.MergeOne(old(db), g, source, target, now), r, db)
    {
      var desired := if db.agents[g].pending.Some? then db.agents[g].pending.value else target;
      if desired == source {
        desired := target;
      }
      if db.agents[g].state.Draining? {
        db := db.(agents := db.agents[g := db.agents[g].(pending := Some(desired))]);
        r := ReleaseAgent(g, now);
      } else {
        r := RequestPartitionCutover(g, desired, now);
      }
    }

    method MergeMembers(list: seq<Id>, source: Id, target: Id, now: real) returns (r: Outcome<()>)
      modifies this
      ensures Did(T.MergeEach(old(db), list, source, target, now), r, db)
    {
      for i := 0 to |list|
        invariant T.MergeEach(db, list[i..], source, target, now) == T.MergeEach(old(db), list, source, target, now)
      {
        assert list[i..][0] == list[i] && list[i..][1..] == list[i + 1..];
        if list[i] !in db.agents {
          return Err(NotFound);
        }
        var _ :- MergeOne(list[i], source, target, now);
      }
      return Ok(());
    }

    method MergeSteps(source: Id, target: Id, now: real) returns (r: Outcome<()>)
      modifies this
      ensures Did(T.MergePartitions(old(db), source, target, now), r, db)
    {
      if source == target {
        return Err(BadValue);
      }
      if !T.ActivePartition(db.partitions, source) || !T.ActivePartition(db.partitions, target) {
        return Err(NotFound);
      }
      var merged := db.partitions[source].desired + db.partitions[target].desired;
      db := db.(revision := db.revision + 1);
      db := db.(tasks := T.RebaseTasks(db.tasks, source, target));
      db := db.(agents := T.RebasePending(db.agents, source, target));
      assert db == T.Rebased(old(db), source, target);
      var _ :- MergeMembers(T.ImmediateList(db.agents, source), source, target, now);
      if !T.ActivePartition(db.partitions, source) || !T.ActivePartition(db.partitions, target) {
        return Err(NotFound);
      }
      db := db.(agents := T.StageMerged(db.agents, source, target));
      db := db.(partitions :=
        db.partitions[source := db.partitions[source].(active := false, desired := 0, mergedInto := Some(target),
                                                                             revision := db.revision)]);
      db := db.(partitions :=
        db.partitions[target := db.partitions[target].(desired := merged, revision := db.revision)]);
      return Ok(());
    }

    // -------------------------------------------------------------- retirement and revival

    method DepartMany(list: seq<Id>, now: real) returns (r: Outcome<()>)
      modifies this
      ensures Did(T.DepartEach(old(db), list, now), r, db)
    {
      for i := 0 to |list|
        invariant T.DepartEach(db, list[i..], now) == T.DepartEach(old(db), list, now)
      {
        var g := list[i];
        assert list[i..][0] == g && list[i..][1..] == list[i + 1..];
        if g !in db.agents {
          return Err(NotFound);
        }
        if db.agents[g].state.Draining? {
          var _ :- ReleaseAgent(g, now);
        } else if db.agents[g].pending.Some? {
          var _ :- RequestPartitionCutover(g, db.agents[g].pending.value, now);
        }
      }
      return Ok(());
    }

    method RetireMany(list: seq<Id>)
      modifies this
      ensures db == T.RetireEach(old(db), list)
    {
      for i := 0 to |list|
        invariant T.RetireEach(db, list[i..]) == T.RetireEach(old(db), list)
      {
        assert list[i..][0] == list[i] && list[i..][1..] == list[i + 1..];
        if list[i] in db.agents {
          RetireLogicalAgent(list[i]);
        }
      }
    }

    method RetireSteps(name: Id, now: real) returns (r: Outcome<()>)
      modifies this
      ensures Did(T.RetirePartition(old(db), name, now), r, db)
    {
      if !T.ActivePartition(db.partitions, name) {
        return Err(NotFound);
      }
      if T.Unfinished(db, name) {
        return Err(InvalidTransition);
      }
      if T.Inbound(db, name) {
        return Err(InvalidTransition);
      }
      if T.Obliged(db, name) {
        return Err(InvalidTransition);
      }
      var _ :- DepartMany(T.DepartingList(db.agents, name), now);
      RetireMany(T.RetiringList(db.agents, name));
      if name !in db.partitions {
        return Err(NotFound);
      }
      db := db.(revision := db.revision + 1);
      db := db.(agents := T.DrainAssigned(db.agents, name));
      db := db.(partitions :=
        db.partitions[name := db.partitions[name].(active := false, desired := 0, revision := db.revision)]);
      return Ok(());
    }

    method ReviveSteps(g: Id, target: Id, now: real) returns (r: Outcome<()>)
      modifies this
      ensures Committed(T.ReviveAgent(old(db), g, target, now), r, old(db), db)
    {
      if g !in db.agents {
        return Err(NotFound);
      }
      if db.agents[g].state.Retired? {
        return Err(InvalidTransition);
      }
      if exists k :: k in db.escalations && db.escalations[k].agent == g && db.escalations[k].Hold() {
        return Err(InvalidTransition);
      }
      if db.agents[g].current.Some? || T.HasActiveAttempt(db.attempts, g) {
        return Err(InvalidTransition);
      }
      if !T.ActivePartition(db.partitions, db.agents[g].partition) {
        return Err(NotFound);
      }
      if db.partitions[db.agents[g].partition].target != target {
        return Err(InvalidTransition);
      }
      db := db.(agents := db.agents[g := db.agents[g].(state := AgentState.Ready, available := Some(now))]);
      return Ok(());
    }

    method MarkLostSteps(i: Id, now: real) returns (r: Outcome<()>)
      modifies this
      ensures Did(T.MarkIncarnationLost(old(db), i, now), r, db)
    {
      if i !in db.incarnations {
        return Err(NotFound);
      }
      if db.incarnations[i].state.Lost? || db.incarnations[i].state.Terminated? {
        return Ok(());
      }
      db := db.(incarnations := db.incarnations[i := db.incarnations[i].(state := IncarnationState.Lost)]);
      var g := db.incarnations[i].agent;
      if g !in db.agents {
        return Err(NotFound);
      }
      if db.agents[g].state.Ready? {
        db := db.(agents := db.agents[g := db.agents[g].(state := AgentState.Reviving, available := None)]);
      } else if db.agents[g].state.Draining? && db.agents[g].current.None? && db.agents[g].pending.Some? {
        r := ReleaseAgent(g, now);
        return;
      }
      return Ok(());
    }

    // -------------------------------------------------------------- submission

    method InsertMany(graph: TaskGraph.Graph, batch: Id, specs: seq<W.TaskSpec>, now: real) returns (r: Outcome<()>)
      modifies this
      ensures match W.InsertTasks(old(db.partitions), old(db.tasks), graph, batch, specs, now)
        case Ok(tasks) => r.Ok? && db == old(db).(tasks := tasks)
        case Err(e) => r == Err(e)
    {
      for i := 0 to |specs|
        invariant W.InsertTasks(old(db.partitions), old(db.tasks), graph, batch, specs[..i], now) == Ok(db.tasks)
        invariant db == old(db).(tasks := db.tasks)
      {
        var spec := specs[i];
        assert specs[..i + 1][..i] == specs[..i];
        if !T.ActivePartition(db.partitions, spec.partition) {
          InsertFails(old(db.partitions), old(db.tasks), graph, batch, specs, now, i + 1);
          return Err(NotFound);
        }
        if spec.id in db.tasks || spec.id !in graph
           || spec.maxAttempts < 1 || spec.baseBackoff < 0.0 || spec.maxBackoff < spec.baseBackoff {
          InsertFails(old(db.partitions), old(db.tasks), graph, batch, specs, now, i + 1);
          return Err(Integrity);
        }
        db := db.(tasks := db.tasks[spec.id := W.NewTask(spec, batch, (set d | d in graph[spec.id]), now)]);
      }
      assert specs[..|specs|] == specs;
      return Ok(());
    }

    method SubmitSteps(batch: Id, specs: seq<W.TaskSpec>, now: real) returns (r: Outcome<()>)
      modifies this
      ensures Did(W.SubmitBatch(old(db), batch, specs, now), r, db)
    {
      if specs == [] {
        return Err(BadValue);
      }
      var ids :- NameTasks(specs);
      var graph :- DependencyGraph(ids, specs);
      var acyclic := TaskGraph.AssertAcyclic(graph);
      if !acyclic {
        return Err(BadValue);
      }
      if batch in db.batches {
        return Err(Integrity);
      }
      db := db.(batches := db.batches[batch := BatchState.Active]);
      var _ :- InsertMany(graph, batch, specs, now);
      if W.Repeats(graph) {
        return Err(Integrity);
      }
      return Ok(());
    }

    // -------------------------------------------------------------- claims

    method ClaimSelected(t: Id, g: Id, attempt: Id, leaseSeconds: real, now: real) returns (r: Outcome<()>)
      requires t in db.tasks && g in db.agents
      modifies this
      ensures Did(W.ClaimSelected(old(db), t, g, attempt, leaseSeconds, now), r, db)
    {
      if attempt in db.attempts || attempt in db.leases {
        return Err(Integrity);
      }
      var epoch := db.tasks[t].epoch + 1;
      var number := |W.AttemptsOf(db.attempts, t)| + 1;
      db := db.(attempts := db.attempts[attempt := Attempt(t, g, None, number, epoch, AttemptState.Active)]);
      db := db.(leases := db.leases[attempt := Lease(t, epoch, LeaseState.Active, now + leaseSeconds)]);
      db := db.(tasks := db.tasks[t := db.tasks[t].(state := TaskState.Leased, current := Some(attempt),
                                                    epoch := epoch)]);
      db := db.(agents :=
        db.agents[g := db.agents[g].(state := AgentState.Assigned, current := Some(t), available := None,
                  workstream := if db.tasks[t].workstream.Some? then db.tasks[t].workstream
                    else db.agents[g].workstream)]);
      return Ok(());
    }

    /** The agents eligible for one task, with the key they are sorted by. */
    method EligibleAgents(t: Id) returns (eligible: map<Id, Rank>)
      requires t in db.tasks
      ensures eligible == W.FittingRows(db, t)
    {
      var task := db.tasks[t];
      var idle := T.ById(IdleAgents(db, task.partition));
      eligible := map[];
      for i := 0 to |idle|
        invariant forall g :: g in eligible <==> g in idle[..i] && g in db.agents && W.Admits(task, db.agents[g])
        invariant forall g | g in eligible :: eligible[g] == W.AgentRank(task, db.agents[g], g)
      {
        var g := idle[i];
        assert g in idle && idle[..i + 1] == idle[..i] + [g];
        if W.Admits(task, db.agents[g]) {
          eligible := eligible[g := W.AgentRank(task, db.agents[g], g)];
        }
      }
      assert idle[..|idle|] == idle;
      AllEligible(db, t, eligible);
    }

    static function IdleAgents(s: Db, name: Id): set<Id> {
      set g | g in s.agents && s.agents[g].partition == name && s.agents[g].state.Ready? && s.agents[g].current.None?
    }

    static lemma AllEligible(s: Db, t: Id, eligible: map<Id, Rank>)
      requires t in s.tasks
      requires forall g :: g in eligible <==>
        g in IdleAgents(s, s.tasks[t].partition) && W.Admits(s.tasks[t], s.agents[g])
      requires forall g | g in eligible :: eligible[g] == W.AgentRank(s.tasks[t], s.agents[g], g)
      ensures eligible == W.FittingRows(s, t)
    {
      assert forall g :: g in eligible <==> g in W.FittingRows(s, t);
    }

    static lemma PairStep(s: Db, list: seq<Id>, i: nat)
      requires i < |list| && forall t | t in list :: t in s.tasks
      ensures var rows := W.FittingRows(s, list[i]);
        W.FirstPair(s, list[i..])
          == if rows == map[] then W.FirstPair(s, list[i + 1..]) else Some((list[i], Least(rows, rows.Keys)))
    {
      assert list[i..][0] == list[i] && list[i..][1..] == list[i + 1..];
    }

    /** The first claimable task in order with an eligible agent, and its best agent. */
    method ChoosePair(now: real) returns (pair: Option<(Id, Id)>)
      ensures pair == W.FirstPair(db, Listing(W.ClaimableRows(db, now)))
    {
      var s, list := db, Listing(W.ClaimableRows(db, now));
      forall t | t in list ensures t in s.tasks {
        assert t in W.ClaimableRows(s, now);
      }
      for i := 0 to |list|
        invariant forall t | t in list[i..] :: t in s.tasks
        invariant W.FirstPair(s, list[i..]) == W.FirstPair(s, list)
      {
        var t := list[i];
        assert t in list;
        PairStep(s, list, i);
        var eligible := EligibleAgents(t);
        if eligible != map[] {
          return Some((t, Least(eligible, eligible.Keys)));
        }
      }
      return None;
    }

    method ClaimAvailableSteps(attempt: Id, leaseSeconds: real, now: real) returns (r: Outcome<Option<(Id, Id)>>)
      modifies this
      ensures match W.ClaimNextAvailable(old(db), attempt, leaseSeconds, now)
        case Ok((s, pair)) => r == Ok(pair) && db == s
        case Err(e) => r == Err(e)
    {
      var pair := ChoosePair(now);
      if pair.None? {
        return Ok(None);
      }
      var (t, g) := pair.value;
      if t !in db.tasks || g !in db.agents {
        return Err(NotFound);
      }
      var _ :- ClaimSelected(t, g, attempt, leaseSeconds, now);
      return Ok(pair);
    }

    static function OpenTasks(s: Db, name: Id, now: real): set<Id> {
      set t | t in s.tasks && W.Open(s, t, now) && s.tasks[t].partition == name
    }

    static lemma AllOffered(s: Db, g: Id, now: real, eligible: map<Id, Rank>)
      requires g in s.agents && s.agents[g].state.Ready? && s.agents[g].current.None?
      requires forall t :: t in eligible <==>
        t in OpenTasks(s, s.agents[g].partition, now) && W.Admits(s.tasks[t], s.agents[g])
      requires forall t | t in eligible :: eligible[t] == W.OfferRank(s.tasks[t], s.agents[g], t)
      ensures eligible == W.OfferedRows(s, g, now)
    {
      assert forall t :: t in eligible <==> t in W.OfferedRows(s, g, now);
    }

    /** The tasks eligible for one idle agent, with the key they are sorted by. */
    method EligibleTasks(g: Id, now: real) returns (eligible: map<Id, Rank>)
      requires g in db.agents && db.agents[g].state.Ready? && db.agents[g].current.None?
      ensures eligible == W.OfferedRows(db, g, now)
    {
      var agent := db.agents[g];
      var candidates := T.ById(OpenTasks(db, agent.partition, now));
      eligible := map[];
      for i := 0 to |candidates|
        invariant forall t :: t in eligible <==> t in candidates[..i] && t in db.tasks && W.Admits(db.tasks[t], agent)
        invariant forall t | t in eligible :: eligible[t] == W.OfferRank(db.tasks[t], agent, t)
      {
        var t := candidates[i];
        assert t in candidates && candidates[..i + 1] == candidates[..i] + [t];
        if W.Admits(db.tasks[t], agent) {
          eligible := eligible[t := W.OfferRank(db.tasks[t], agent, t)];
        }
      }
      assert candidates[..|candidates|] == candidates;
      AllOffered(db, g, now, eligible);
    }

    method ClaimNextSteps(g: Id, attempt: Id, leaseSeconds: real, now: real) returns (r: Outcome<Option<Id>>)
      modifies this
      ensures match W.ClaimNext(old(db), g, attempt, leaseSeconds, now)
        case Ok((s, t)) => r == Ok(t) && db == s
        case Err(e) => r == Err(e)
    {
      if g !in db.agents {
        return Err(NotFound);
      }
      if !db.agents[g].state.Ready? || db.agents[g].current.Some? {
        return Ok(None);
      }
      if !T.ActivePartition(db.partitions, db.agents[g].partition) {
        return Err(NotFound);
      }
      var eligible := EligibleTasks(g, now);
      if eligible == map[] {
        return Ok(None);
      }
      var t := Least(eligible, eligible.Keys);
      var _ :- ClaimSelected(t, g, attempt, leaseSeconds, now);
      return Ok(Some(t));
    }

    // -------------------------------------------------------------- executions

    method EnsureIncarnation(g: Id, target: Id, drawn: Id) returns (r: Outcome<Id>)
      modifies this
      ensures match W.EnsureIncarnation(old(db.incarnations), g, target, drawn)
        case Ok((incs, i)) => r == Ok(i) && db == old(db).(incarnations := incs)
        case Err(e) => r == Err(e)
    {
      var live := W.LiveIncarnations(db.incarnations, g);
      if live != {} {
        var current := Least(W.GenerationRows(db.incarnations, live), live);
        if db.incarnations[current].target != target {
          return Err(InvalidTransition);
        }
        return Ok(current);
      }
      if drawn in db.incarnations {
        return Err(Integrity);
      }
      var all := set i | i in db.incarnations && db.incarnations[i].agent == g;
      var generation := if all == {} then 1
        else db.incarnations[Least(W.GenerationRows(db.incarnations, all), all)].generation + 1;
      db := db.(incarnations :=
        db.incarnations[drawn := Incarnation(g, generation, target, IncarnationState.Starting)]);
      return Ok(drawn);
    }

    method CreateSteps(a: Id, epoch: nat, target: Id, isolated: bool, x: Id, drawn: Id, now: real)
      returns (r: Outcome<()>)
      modifies this
      ensures Did(W.CreateExecution(old(db), a, epoch, target, isolated, x, drawn, now), r, db)
    {
      var _ :- W.CheckAuthority(db, a, epoch, now);
      var i: Id;
      if db.attempts[a].incarnation.Some? {
        i := db.attempts[a].incarnation.value;
      } else {
        i :- EnsureIncarnation(db.attempts[a].agent, target, drawn);
      }
      if W.Busy(db.executions, i) {
        return Err(InvalidTransition);
      }
      if x in db.executions || W.ExecutionsOf(db.executions, a) != {} {
        return Err(Integrity);
      }
      db := db.(attempts := db.attempts[a := db.attempts[a].(incarnation := Some(i))]);
      db := db.(executions :=
        db.executions[x := Execution(db.attempts[a].task, a, i, target, isolated, ExecutionState.Starting, false,
                                     false)]);
      return Ok(());
    }

    method ConfirmSteps(a: Id, epoch: nat, x: Id, leaseSeconds: real, now: real) returns (r: Outcome<()>)
      modifies this
      ensures Committed(W.ConfirmRunning(old(db), a, epoch, x, leaseSeconds, now), r, old(db), db)
    {
      var _ :- W.CheckAuthority(db, a, epoch, now);
      if x !in db.executions {
        return Err(NotFound);
      }
      if db.executions[x].attempt != a {
        return Err(StaleAuthority);
      }
      if !db.executions[x].Live() {
        return Err(InvalidTransition);
      }
      var t := db.attempts[a].task;
      db := db.(executions := db.executions[x := db.executions[x].(state := ExecutionState.Running)]);
      db := db.(tasks := db.tasks[t := db.tasks[t].(state := TaskState.Running)]);
      db := db.(incarnations := W.SetIncarnation(db.incarnations, db.attempts[a].incarnation, IncarnationState.Warm));
      db := db.(leases := db.leases[a := db.leases[a].(expires := now + leaseSeconds)]);
      return Ok(());
    }

    method AmbiguitySteps(a: Id, epoch: nat, x: Id, now: real) returns (r: Outcome<()>)
      modifies this
      ensures Committed(W.RecordStartAmbiguity(old(db), a, epoch, x, now), r, old(db), db)
    {
      var _ :- W.CheckAuthority(db, a, epoch, now);
      if x !in db.executions {
        return Err(NotFound);
      }
      if db.executions[x].attempt != a {
        return Err(StaleAuthority);
      }
      if !db.executions[x].state.Starting? && !db.executions[x].state.Unknown? {
        return Err(InvalidTransition);
      }
      db := db.(executions := db.executions[x := db.executions[x].(state := ExecutionState.Unknown)]);
      return Ok(());
    }

    method RecordPresence(i: Option<Id>, state: ExecutionState, terminal: bool, quiescent: bool, reusable: bool)
      modifies this
      ensures db == old(db).(incarnations := W.Presence(old(db.incarnations), i, state, terminal, quiescent, reusable))
    {
      if i.None? || i.value !in db.incarnations {
        return;
      }
      var live := db.incarnations[i.value].Live();
      if state.Running? {
        if live {
          db := db.(incarnations :=
            db.incarnations[i.value := db.incarnations[i.value].(state := IncarnationState.Warm)]);
        }
        return;
      }
      if state.Starting? || state.Unknown? {
        return;
      }
      if reusable && terminal && quiescent {
        if live {
          db := db.(incarnations :=
            db.incarnations[i.value := db.incarnations[i.value].(state := IncarnationState.Warm)]);
        }
        return;
      }
      var ended := !state.Lost? && terminal && quiescent;
      if live || (ended && db.incarnations[i.value].state.Lost?) {
        var next := if ended then IncarnationState.Terminated else IncarnationState.Lost;
        db := db.(incarnations := db.incarnations[i.value := db.incarnations[i.value].(state := next)]);
      }
    }

    method ObserveSteps(x: Id, state: ExecutionState, terminal: bool, quiescent: bool) returns (r: Outcome<()>)
      modifies this
      ensures Committed(W.RecordPhysicalOutcome(old(db), x, state, terminal, quiescent), r, old(db), db)
    {
      if x !in db.executions {
        return Err(NotFound);
      }
      var e := db.executions[x];
      if !W.TransitionAllowed(e.state, state) {
        return Err(InvalidTransition);
      }
      db := db.(executions := db.executions[x := W.ObservedRow(e, state, terminal, quiescent)]);
      RecordPresence(Some(e.incarnation), state, terminal, quiescent, false);
      return Ok(());
    }

    method HeartbeatSteps(a: Id, epoch: nat, leaseSeconds: real, now: real) returns (r: Outcome<()>)
      modifies this
      ensures Committed(W.Heartbeat(old(db), a, epoch, leaseSeconds, now), r, old(db), db)
    {
      var _ :- W.CheckAuthority(db, a, epoch, now);
      if !W.RunningExecution(db.executions, a) {
        return Err(StaleAuthority);
      }
      db := db.(leases := db.leases[a := db.leases[a].(expires := now + leaseSeconds)]);
      return Ok(());
    }

    method RenewSteps(supervised: set<Id>, leaseSeconds: real, now: real)
      modifies this
      ensures db == W.RenewActiveLeases(old(db), supervised, leaseSeconds, now)
    {
      if supervised == {} {
        assert db.leases == W.RenewActiveLeases(db, supervised, leaseSeconds, now).leases;
        return;
      }
      db := db.(leases := map a | a in db.leases ::
        if a in supervised && W.Renewable(db, a, now) then db.leases[a].(expires := now + leaseSeconds)
          else db.leases[a]);
    }

    method CheckpointSteps(a: Id, epoch: nat, capsule: W.Capsule, now: real) returns (r: Outcome<()>)
      modifies this
      ensures Committed(W.PromoteCheckpoint(old(db), a, epoch, capsule, now), r, old(db), db)
    {
      var _ :- W.CheckAuthority(db, a, epoch, now);
      var agents :- W.PromotedAgents(db.agents, db.attempts[a].agent, capsule);
      db := db.(agents := agents);
      return Ok(());
    }

    method PromoteSteps(now: real)
      modifies this
      ensures db == W.PromoteRetryWait(old(db), now)
    {
      db := db.(tasks := map t | t in db.tasks ::
        if db.tasks[t].state.RetryWait? && db.tasks[t].nextEligible.Some? && db.tasks[t].nextEligible.value <= now
        then db.tasks[t].(state := TaskState.Queued, nextEligible := None) else db.tasks[t]);
    }

    method AckRowSteps(result: Id) returns (r: Outcome<()>)
      modifies this
      ensures Committed(W.AckResult(old(db), result), r, old(db), db)
    {
      if result !in db.results {
        return Err(NotFound);
      }
      if db.results[result].acked {
        assert db.results[result := db.results[result].(acked := true)] == db.results;
        return Ok(());
      }
      db := db.(results := db.results[result := db.results[result].(acked := true)]);
      return Ok(());
    }

    // -------------------------------------------------------------- settlement helpers

    method RecomputeBatch(b: Id, notice: Id) returns (r: Outcome<()>)
      modifies this
      ensures Did(W.RecomputeBatch(old(db), b, notice), r, db)
    {
      if b !in db.batches {
        return Err(NotFound);
      }
      if db.batches[b].Cancelled? {
        return Ok(());
      }
      var next := if W.SomeStopped(db.tasks, b) then BatchState.Suspended
                  else if W.AllCompleted(db.tasks, b) then BatchState.Completed else BatchState.Active;
      if db.batches[b] != next {
        db := db.(batches := db.batches[b := next]);
        if next.Completed? {
          if notice in db.outbox {
            return Err(Integrity);
          }
          db := db.(outbox := db.outbox[notice := BatchResultsReady(b)]);
        }
      }
      return Ok(());
    }

    method CreateEscalation(t: Id, g: Id, cause: FailureClass, drawn: W.Drawn) returns (r: Outcome<()>)
      modifies this
      ensures Did(W.CreateEscalation(old(db), t, g, cause, drawn), r, db)
    {
      if t !in db.tasks {
        return Err(NotFound);
      }
      if W.HasOpen(db.escalations, t) {
        return Ok(());
      }
      if drawn.escalation in db.escalations || drawn.decision in db.outbox {
        return Err(Integrity);
      }
      db := db.(escalations :=
        db.escalations[drawn.escalation := Escalation(t, db.tasks[t].batch, g, cause, EscalationState.Open)]);
      db := db.(outbox := db.outbox[drawn.decision := DecisionRequired(drawn.escalation)]);
      return Ok(());
    }

    method CloseAttempt(a: Id, attempt: AttemptState, lease: LeaseState)
      modifies this
      ensures db == W.CloseAttempt(old(db), a, attempt, lease)
    {
      if a in db.attempts {
        db := db.(attempts := db.attempts[a := db.attempts[a].(state := attempt)]);
      }
      if a in db.leases {
        db := db.(leases := db.leases[a := db.leases[a].(state := lease)]);
      }
    }

    method SetTask(t: Id, state: TaskState, next: Option<real>)
      modifies this
      ensures db == W.SetTask(old(db), t, state, next)
    {
      if t in db.tasks {
        db := db.(tasks := db.tasks[t := db.tasks[t].(state := state, current := None, nextEligible := next)]);
      }
    }

    method SuspendAgent(g: Id)
      modifies this
      ensures db == old(db).(agents := T.SuspendAgent(old(db.agents), g))
    {
      if g in db.agents && !db.agents[g].state.Retired? {
        db := db.(agents :=
          db.agents[g := db.agents[g].(state := AgentState.Suspended, current := None, available := None)]);
      }
    }

    /** Close the attempt, wait for a retry, and hand the agent back. */
    method CloseRetry(a: Id, attempt: AttemptState, lease: LeaseState, eligible: real, now: real)
      returns (r: Outcome<()>)
      requires a in db.attempts
      modifies this
      ensures Did(W.CloseRetry(old(db), a, attempt, lease, eligible, now), r, db)
    {
      var t, g := db.attempts[a].task, db.attempts[a].agent;
      CloseAttempt(a, attempt, lease);
      SetTask(t, TaskState.RetryWait, Some(eligible));
      r := ReleaseAgent(g, now);
    }

    method SuspendRows(a: Id, attempt: AttemptState, lease: LeaseState, cause: FailureClass, now: real)
      returns (r: Outcome<()>)
      requires a in db.attempts && db.attempts[a].task in db.tasks
      modifies this
      ensures Did(W.SuspendedRows(old(db), a, attempt, lease, cause, now), r, db)
    {
      var t, g := db.attempts[a].task, db.attempts[a].agent;
      var next := db.tasks[t].nextEligible;
      CloseAttempt(a, attempt, lease);
      SetTask(t, TaskState.Suspended, next);
      if cause.WriterQuiescenceUnknown? {
        SuspendAgent(g);
        return Ok(());
      }
      r := ReleaseAgent(g, now);
    }

    method Escalate(t: Id, g: Id, b: Id, cause: FailureClass, drawn: W.Drawn) returns (r: Outcome<()>)
      modifies this
      ensures Did(W.Escalate(old(db), t, g, b, cause, drawn), r, db)
    {
      var _ :- CreateEscalation(t, g, cause, drawn);
      r := RecomputeBatch(b, drawn.notice);
    }

    /** Close the attempt, suspend the task, and ask Root to decide. */
    method CloseSuspended(a: Id, attempt: AttemptState, lease: LeaseState, cause: FailureClass, drawn: W.Drawn,
                          now: real)
      returns (r: Outcome<()>)
      requires a in db.attempts && db.attempts[a].task in db.tasks
      modifies this
      ensures Did(W.CloseSuspended(old(db), a, attempt, lease, cause, drawn, now), r, db)
    {
      var t, g := db.attempts[a].task, db.attempts[a].agent;
      var b := db.tasks[t].batch;
      r := SuspendRows(a, attempt, lease, cause, now);
      if r.Ok? {
        assert W.SuspendedRows(old(db), a, attempt, lease, cause, now) == Ok(db);
        r := Escalate(t, g, b, cause, drawn);
      }
    }

    method MarkExecution(x: Option<Id>, state: ExecutionState, terminal: bool, quiescent: bool)
      modifies this
      ensures db == W.MarkExecution(old(db), x, state, terminal, quiescent)
    {
      if x.Some? && x.value in db.executions {
        db := db.(executions :=
          db.executions[x.value := db.executions[x.value].(state := state, terminal := terminal,
                                                           quiescent := quiescent)]);
      }
    }

    // -------------------------------------------------------------- ack and nack

    method FinishExecution(a: Id, x: Option<Id>, quiescent: bool, reusable: bool)
      requires a in db.attempts
      modifies this
      ensures db == W.FinishedRows(old(db), a, x, quiescent, reusable)
    {
      MarkExecution(x, ExecutionState.Succeeded, true, quiescent);
      RecordPresence(db.attempts[a].incarnation, ExecutionState.Succeeded, true, quiescent, reusable);
    }

    method CompleteRows(a: Id, result: Id)
      requires a in db.attempts && db.attempts[a].task in db.tasks
      modifies this
      ensures db == W.CompletedRows(old(db), a, result)
    {
      var t, g := db.attempts[a].task, db.attempts[a].agent;
      var b := db.tasks[t].batch;
      CloseAttempt(a, AttemptState.Succeeded, LeaseState.Released);
      SetTask(t, TaskState.Completed, None);
      db := db.(results := db.results[result := Result(t, b, a, g, false)]);
    }

    method FinishTask(g: Id, b: Id, notice: Id, now: real) returns (r: Outcome<()>)
      modifies this
      ensures Did(W.FinishTask(old(db), g, b, notice, now), r, db)
    {
      var _ :- ReleaseAgent(g, now);
      db := db.(tasks := W.ReleaseDependencies(db.tasks, b));
      r := RecomputeBatch(b, notice);
    }

    method Complete(a: Id, x: Option<Id>, capsule: W.Capsule, quiescent: bool, reusable: bool, drawn: W.Drawn,
                    now: real)
      returns (r: Outcome<()>)
      requires a in db.attempts && db.attempts[a].task in db.tasks
      modifies this
      ensures Did(W.AckCompleted(old(db), a, x, capsule, quiescent, reusable, drawn, now), r, db)
    {
      var g, b := db.attempts[a].agent, db.tasks[db.attempts[a].task].batch;
      var agents :- W.PromotedAgents(db.agents, g, capsule);
      db := db.(agents := agents);
      if x.Some? && (x.value !in db.executions || !db.executions[x.value].Live()) {
        return Err(InvalidTransition);
      }
      if drawn.result in db.results {
        return Err(Integrity);
      }
      FinishExecution(a, x, quiescent, reusable);
      CompleteRows(a, drawn.result);
      r := FinishTask(g, b, drawn.notice, now);
    }

    method AckSteps(a: Id, epoch: nat, supplied: Option<Id>, capsule: W.Capsule, quiescent: bool, reusable: bool,
                    drawn: W.Drawn, now: real) returns (r: Outcome<()>)
      modifies this
      ensures Did(W.AckSuccess(old(db), a, epoch, supplied, capsule, quiescent, reusable, drawn, now), r, db)
    {
      var _ :- W.CheckAuthority(db, a, epoch, now);
      var x :- W.ExecutionFor(db, a, supplied);
      if !W.WriterSafe(db, db.attempts[a].task, x, quiescent) {
        FinishExecution(a, x, false, false);
        r := CloseSuspended(a, AttemptState.Failed, LeaseState.Revoked, WriterQuiescenceUnknown, drawn, now);
        return;
      }
      r := Complete(a, x, capsule, quiescent, reusable, drawn, now);
    }

    method Settle(a: Id, attempt: AttemptState, onRetry: LeaseState, onStop: LeaseState, verdict: W.Verdict,
                  drawn: W.Drawn, now: real) returns (r: Outcome<()>)
      requires a in db.attempts && db.attempts[a].task in db.tasks
      modifies this
      ensures Did(W.Settle(old(db), a, attempt, onRetry, onStop, verdict, drawn, now), r, db)
    {
      match verdict
      case RetryAt(eligible) => r := CloseRetry(a, attempt, onRetry, eligible, now);
      case Stop(cause) => r := CloseSuspended(a, attempt, onStop, cause, drawn, now);
    }

    method FailExecution(a: Id, x: Option<Id>, report: W.Report)
      requires a in db.attempts
      modifies this
      ensures db == W.FailedRows(old(db), a, x, report)
    {
      MarkExecution(x, if report.terminal then ExecutionState.Failed
        else ExecutionState.Unknown, report.terminal, report.quiescent);
      RecordPresence(db.attempts[a].incarnation, if report.cause.ExecutionLost? then ExecutionState.Lost
        else ExecutionState.Failed,
                     report.terminal, report.quiescent, report.reusable);
    }

    method NackSteps(a: Id, epoch: nat, supplied: Option<Id>, report: W.Report, drawn: W.Drawn, at: real, now: real)
      returns (r: Outcome<()>)
      modifies this
      ensures Did(W.Nack(old(db), a, epoch, supplied, report, drawn, at, now), r, db)
    {
      var _ :- W.CheckAuthority(db, a, epoch, now);
      var x :- W.ExecutionFor(db, a, supplied);
      if x.Some? && (x.value !in db.executions || !db.executions[x.value].Live()) {
        return Err(InvalidTransition);
      }
      var t := db.attempts[a].task;
      var safe := W.WriterSafe(db, t, x, report.quiescent);
      var verdict := W.Judge(db.tasks[t], report.cause, db.attempts[a].number, safe, at);
      FailExecution(a, x, report);
      r := Settle(a, AttemptState.Failed, LeaseState.Released, LeaseState.Revoked, verdict, drawn, at);
    }

    // -------------------------------------------------------------- expiry

    method ExpireOne(a: Id, drawn: W.Drawn, now: real) returns (r: Outcome<()>)
      requires a in db.attempts && db.attempts[a].task in db.tasks
      modifies this
      ensures Did(W.ExpireOne(old(db), a, drawn, now), r, db)
    {
      var t := db.attempts[a].task;
      var verdict := W.Judge(db.tasks[t], ExecutionLost, db.attempts[a].number, W.ExpiresSafely(db, a), now);
      db := db.(incarnations := W.LostIncarnation(db.incarnations, db.attempts[a].incarnation));
      r := Settle(a, AttemptState.Expired, LeaseState.Expired, LeaseState.Expired, verdict, drawn, now);
    }

    method ExpireSteps(unstarted: bool, draw: nat -> W.Drawn, now: real) returns (r: Outcome<()>)
      modifies this
      ensures Did(W.ExpireLeases(old(db), unstarted, draw, now), r, db)
    {
      var rows := Listing(W.LapsedRows(db, unstarted, now));
      for i := 0 to |rows|
        invariant W.ExpireEach(db, rows[i..], i, draw, now) == W.ExpireEach(old(db), rows, 0, draw, now)
      {
        var a := rows[i];
        assert rows[i..][0] == a && rows[i..][1..] == rows[i + 1..];
        if a in db.attempts && db.attempts[a].task in db.tasks {
          var _ :- ExpireOne(a, draw(i), now);
        }
      }
      return Ok(());
    }

    // -------------------------------------------------------------- cancellation

    method DisposeAgent(a: Id, safe: bool, drawn: W.Drawn, now: real) returns (r: Outcome<()>)
      requires a in db.attempts
      modifies this
      ensures Did(W.DisposeAgent(old(db), a, safe, drawn, now), r, db)
    {
      var t, g := db.attempts[a].task, db.attempts[a].agent;
      if safe {
        r := ReleaseAgent(g, now);
      } else {
        SuspendAgent(g);
        r := CreateEscalation(t, g, WriterQuiescenceUnknown, drawn);
      }
    }

    method CancelRows(a: Id, x: Option<Id>, confirmed: bool)
      requires a in db.attempts
      modifies this
      ensures db == W.CancelledRows(old(db), a, x, confirmed)
    {
      var quiet := x.None? || W.KnownQuiet(db, x, confirmed);
      RecordPresence(db.attempts[a].incarnation, if quiet then ExecutionState.Terminated
        else ExecutionState.Lost, quiet, quiet, false);
      CloseAttempt(a, AttemptState.Cancelled, LeaseState.Revoked);
    }

    method CancelAttempt(a: Id, confirmed: bool, drawn: W.Drawn, now: real) returns (r: Outcome<()>)
      requires a in db.attempts && db.attempts[a].task in db.tasks
      modifies this
      ensures Did(W.CancelAttempt(old(db), a, confirmed, drawn, now), r, db)
    {
      var x := W.ExecutionOf(db.executions, a);
      var safe := W.WriterSafe(db, db.attempts[a].task, x, W.KnownQuiet(db, x, confirmed));
      CancelRows(a, x, confirmed);
      r := DisposeAgent(a, safe, drawn, now);
    }

    method CancelTaskSteps(t: Id, confirmed: bool, drawn: W.Drawn, now: real) returns (r: Outcome<()>)
      modifies this
      ensures Did(W.CancelTask(old(db), t, confirmed, drawn, now), r, db)
    {
      if t !in db.tasks {
        return Err(NotFound);
      }
      if db.tasks[t].Terminal() {
        return Ok(());
      }
      var next, b := db.tasks[t].nextEligible, db.tasks[t].batch;
      if db.tasks[t].current.Some? {
        var a := db.tasks[t].current.value;
        if a !in db.attempts || db.attempts[a].task !in db.tasks {
          return Err(NotFound);
        }
        var _ :- CancelAttempt(a, confirmed, drawn, now);
      }
      SetTask(t, TaskState.Cancelled, next);
      r := RecomputeBatch(b, drawn.notice);
    }

    method CancelMany(list: seq<Id>, draw: nat -> W.Drawn, now: real) returns (r: Outcome<()>)
      modifies this
      ensures Did(W.CancelEach(old(db), list, 0, draw, now), r, db)
    {
      for i := 0 to |list|
        invariant W.CancelEach(db, list[i..], i, draw, now) == W.CancelEach(old(db), list, 0, draw, now)
      {
        var a := list[i];
        assert list[i..][0] == a && list[i..][1..] == list[i + 1..];
        if a !in db.attempts || db.attempts[a].task !in db.tasks {
          return Err(NotFound);
        }
        var _ :- CancelAttempt(a, false, draw(i), now);
      }
      return Ok(());
    }

    method CancelBatchSteps(b: Id, draw: nat -> W.Drawn, now: real) returns (r: Outcome<()>)
      modifies this
      ensures Did(W.CancelBatch(old(db), b, draw, now), r, db)
    {
      if b !in db.batches {
        return Err(NotFound);
      }
      if db.batches[b].Cancelled? {
        return Ok(());
      }
      var active := T.ById(set a | a in db.attempts && W.ActiveIn(db, a, b));
      db := db.(escalations := W.CancelOthers(db.escalations, b));
      var _ :- CancelMany(active, draw, now);
      db := db.(tasks := W.CancelTasks(db.tasks, b));
      db := db.(batches := db.batches[b := BatchState.Cancelled]);
      return Ok(());
    }

    // -------------------------------------------------------------- escalations

    method FinalizeWriter(t: Id, confirmed: bool)
      modifies this
      ensures db == W.FinalizeWriter(old(db), t, confirmed)
    {
      var a, x := W.Latest(db.attempts, t), W.LatestExecution(db, t);
      if a.None? || a.value !in db.attempts {
        return;
      }
      if x.Some? && x.value in db.executions {
        db := db.(executions := db.executions[x.value := W.FinalExecution(db.executions[x.value], confirmed)]);
      }
      db := db.(incarnations := W.FinalIncarnations(db.incarnations, db.attempts[a.value].incarnation, confirmed));
    }

    method PrepareRevival(g: Id, now: real) returns (r: Outcome<()>)
      modifies this
      ensures Did(W.PrepareRevival(old(db), g, now), r, db)
    {
      if g !in db.agents {
        return Err(NotFound);
      }
      if db.agents[g].state.Retired? {
        return Ok(());
      }
      var _ :- ReleaseAgent(g, now);
      if g in db.agents && db.agents[g].state.Ready? {
        db := db.(agents := db.agents[g := db.agents[g].(state := AgentState.Reviving, available := None)]);
      }
      return Ok(());
    }

    method ReleaseWriter(e: Escalation, confirmed: bool, now: real) returns (r: Outcome<()>)
      modifies this
      ensures Did(W.ReleaseWriter(old(db), e, confirmed, now), r, db)
    {
      FinalizeWriter(e.task, confirmed);
      r := PrepareRevival(e.agent, now);
    }

    method CloseEscalation(k: Id)
      modifies this
      ensures db == W.CloseEscalation(old(db), k)
    {
      if k in db.escalations {
        db := db.(escalations := db.escalations[k := db.escalations[k].(state := EscalationState.Resolved)]);
      }
    }

    method ReleaseCancelled(k: Id, confirmed: bool, notice: Id, now: real) returns (r: Outcome<()>)
      requires k in db.escalations && db.escalations[k].task in db.tasks
      modifies this
      ensures Did(W.ReleaseCancelled(old(db), k, confirmed, notice, now), r, db)
    {
      var e := db.escalations[k];
      var b := db.tasks[e.task].batch;
      if !db.tasks[e.task].state.Cancelled? || !e.cause.WriterQuiescenceUnknown?
        || !(confirmed || W.FrozenIsolation(db, e.task)) {
        return Err(InvalidTransition);
      }
      var _ :- ReleaseWriter(e, confirmed, now);
      CloseEscalation(k);
      r := RecomputeBatch(b, notice);
    }

    method Requeue(t: Id)
      requires t in db.tasks
      modifies this
      ensures db == W.Requeue(old(db), t)
    {
      var b := db.tasks[t].batch;
      db := db.(tasks := db.tasks[t := db.tasks[t].(state := TaskState.Queued, nextEligible := None)]);
      if b in db.batches && db.batches[b].Suspended? {
        db := db.(batches := db.batches[b := BatchState.Active]);
      }
    }

    method RetryTask(k: Id, confirmed: bool, notice: Id, now: real) returns (r: Outcome<()>)
      requires k in db.escalations && db.escalations[k].task in db.tasks
      modifies this
      ensures Did(W.RetryTask(old(db), k, confirmed, notice, now), r, db)
    {
      var e := db.escalations[k];
      var b := db.tasks[e.task].batch;
      var writer := e.cause.WriterQuiescenceUnknown?;
      if !db.tasks[e.task].state.Suspended? {
        return Err(InvalidTransition);
      }
      if db.tasks[e.task].mode.Write? && writer && !(confirmed || W.FrozenIsolation(db, e.task)) {
        return Err(InvalidTransition);
      }
      Requeue(e.task);
      if writer {
        var _ :- ReleaseWriter(e, confirmed, now);
      }
      CloseEscalation(k);
      r := RecomputeBatch(b, notice);
    }

    method CancelEscalated(k: Id, notice: Id) returns (r: Outcome<()>)
      requires k in db.escalations && db.escalations[k].task in db.tasks
      modifies this
      ensures Did(W.CancelEscalated(old(db), k, notice), r, db)
    {
      var e := db.escalations[k];
      var b := db.tasks[e.task].batch;
      db := db.(tasks := db.tasks[e.task := db.tasks[e.task].(state := TaskState.Cancelled)]);
      if !e.cause.WriterQuiescenceUnknown? {
        CloseEscalation(k);
      }
      r := RecomputeBatch(b, notice);
    }

    method ResolveSteps(k: Id, how: W.Resolution, confirmed: bool, notice: Id, now: real) returns (r: Outcome<()>)
      modifies this
      ensures Did(W.ResolveEscalation(old(db), k, how, confirmed, notice, now), r, db)
    {
      if k !in db.escalations {
        return Err(NotFound);
      }
      if !db.escalations[k].state.Open? {
        return Err(InvalidTransition);
      }
      if db.escalations[k].task !in db.tasks {
        return Err(NotFound);
      }
      match how
      case ReleaseCancelledWriter => r := ReleaseCancelled(k, confirmed, notice, now);
      case Retry => r := RetryTask(k, confirmed, notice, now);
      case CancelIt => r := CancelEscalated(k, notice);
    }

    // -------------------------------------------------------------- the calls

    method UpsertPartition(spec: T.PartitionSpec) returns (r: Outcome<()>)
      requires Valid()
      modifies this
      ensures Valid()
      ensures Committed(T.UpsertPartition(old(db), spec), r, old(db), db)
    {
      ghost var begun := db;
      r := UpsertSteps(spec);
      LawfulIff(begun);
      LawfulIff(db);
      if r.Ok? {
        TopologyOps.UpsertInv(begun, spec);
      }
    }

    method ResizePartition(name: Id, desired: int) returns (r: Outcome<()>)
      requires Valid()
      modifies this
      ensures Valid()
      ensures Committed(T.ResizePartition(old(db), name, desired), r, old(db), db)
    {
      ghost var begun := db;
      r := ResizeSteps(name, desired);
      LawfulIff(begun);
      LawfulIff(db);
      if r.Ok? {
        TopologyOps.ResizeInv(begun, name, desired);
      }
    }

    method BirthAgent(id: Id, name: Id, workstream: Option<Id>, tags: Option<set<Id>>, now: real)
      returns (r: Outcome<()>)
      requires Valid()
      modifies this
      ensures Valid() && Evolves(old(db), db, now, None, None)
      ensures Committed(T.BirthAgent(old(db), id, name, workstream, tags, now), r, old(db), db)
    {
      ghost var begun := db;
      r := BirthSteps(id, name, workstream, tags, now);
      LawfulIff(begun);
      LawfulIff(db);
      if r.Ok? {
        TopologyOps.BirthInv(begun, id, name, workstream, tags, now);
        ReshapedEvolves(begun, db, now);
      } else {
        EvolvesSelf(begun, now, None, None);
      }
    }

    method ReconcilePool(draw: nat -> Id, now: real) returns (r: Outcome<()>)
      requires Valid()
      modifies this
      ensures Valid() && Evolves(old(db), db, now, None, None)
      ensures Committed(T.ReconcilePool(old(db), draw, now), r, old(db), db)
      ensures r.Ok? ==> forall p | p in db.partitions && db.partitions[p].active ::
        |T.Members(db.agents, p)| == db.partitions[p].desired
    {
      var begun := db;
      r := ReconcileSteps(draw, now);
      Finish(r, begun);
      LawfulIff(begun);
      LawfulIff(db);
      if r.Ok? {
        TopologyOps.ReconcileInv(begun, draw, now);
        PoolExact.ReconcileExact(begun, draw, now);
        ReshapedEvolves(begun, db, now);
      } else {
        EvolvesSelf(begun, now, None, None);
      }
    }

    method EnsureTaskConsumers(draw: nat -> Id, now: real) returns (r: Outcome<()>)
      requires Valid()
      modifies this
      ensures Valid() && Evolves(old(db), db, now, None, None)
      ensures Committed(W.EnsureTaskConsumers(old(db), draw, now), r, old(db), db)
    {
      var begun := db;
      r := EnsureSteps(draw, now);
      Finish(r, begun);
      LawfulIff(begun);
      LawfulIff(db);
      if r.Ok? {
        TopologyOps.EnsureInv(begun, draw, now);
        ReshapedEvolves(begun, db, now);
      } else {
        EvolvesSelf(begun, now, None, None);
      }
    }

    method MoveAgent(g: Id, name: Id, now: real) returns (r: Outcome<()>)
      requires Valid()
      modifies this
      ensures Valid() && Evolves(old(db), db, now, None, None)
      ensures Committed(T.MoveAgent(old(db), g, name, now), r, old(db), db)
    {
      var begun := db;
      r := MoveAgentSteps(g, name, now);
      Finish(r, begun);
      LawfulIff(begun);
      LawfulIff(db);
      if r.Ok? {
        TopologyOps.MoveAgentInv(begun, g, name, now);
        ReshapedEvolves(begun, db, now);
      } else {
        EvolvesSelf(begun, now, None, None);
      }
    }

    method MoveCapacity(source: Id, target: Id, count: int, now: real) returns (r: Outcome<()>)
      requires Valid()
      modifies this
      ensures Valid() && Evolves(old(db), db, now, None, None)
      ensures Committed(T.MoveCapacity(old(db), source, target, count, now), r, old(db), db)
      ensures PoolExact.Total(db.partitions) == PoolExact.Total(old(db.partitions))
    {
      var begun := db;
      r := MoveCapacitySteps(source, target, count, now);
      Finish(r, begun);
      LawfulIff(begun);
      LawfulIff(db);
      if r.Ok? {
        TopologyOps.MoveCapacityInv(begun, source, target, count, now);
        PoolExact.MoveConserves(begun, source, target, count, now);
        ReshapedEvolves(begun, db, now);
      } else {
        EvolvesSelf(begun, now, None, None);
      }
    }

    method MergePartitions(source: Id, target: Id, now: real) returns (r: Outcome<()>)
      requires Valid()
      modifies this
      ensures Valid() && Evolves(old(db), db, now, None, None)
      ensures Committed(T.MergePartitions(old(db), source, target, now), r, old(db), db)
      ensures PoolExact.Total(db.partitions) == PoolExact.Total(old(db.partitions))
    {
      var begun := db;
      r := MergeSteps(source, target, now);
      Finish(r, begun);
      LawfulIff(begun);
      LawfulIff(db);
      if r.Ok? {
        TopologyOps.MergeInv(begun, source, target, now);
        PoolExact.MergeConserves(begun, source, target, now);
        ReshapedEvolves(begun, db, now);
      } else {
        EvolvesSelf(begun, now, None, None);
      }
    }

    method RetirePartition(name: Id, now: real) returns (r: Outcome<()>)
      requires Valid()
      modifies this
      ensures Valid() && Evolves(old(db), db, now, None, None)
      ensures Committed(T.RetirePartition(old(db), name, now), r, old(db), db)
    {
      var begun := db;
      r := RetireSteps(name, now);
      Finish(r, begun);
      LawfulIff(begun);
      LawfulIff(db);
      if r.Ok? {
        TopologyOps.RetirePartitionInv(begun, name, now);
        ReshapedEvolves(begun, db, now);
      } else {
        EvolvesSelf(begun, now, None, None);
      }
    }

    method ReviveAgent(g: Id, target: Id, now: real) returns (r: Outcome<()>)
      requires Valid()
      modifies this
      ensures Valid() && Evolves(old(db), db, now, None, None)
      ensures Committed(T.ReviveAgent(old(db), g, target, now), r, old(db), db)
    {
      ghost var begun := db;
      r := ReviveSteps(g, target, now);
      LawfulIff(begun);
      LawfulIff(db);
      if r.Ok? {
        TopologyOps.ReviveInv(begun, g, target, now);
        ReshapedEvolves(begun, db, now);
      } else {
        EvolvesSelf(begun, now, None, None);
      }
    }

    method MarkIncarnationLost(i: Id, now: real) returns (r: Outcome<()>)
      requires Valid()
      modifies this
      ensures Valid() && Evolves(old(db), db, now, None, None)
      ensures Committed(T.MarkIncarnationLost(old(db), i, now), r, old(db), db)
    {
      var begun := db;
      r := MarkLostSteps(i, now);
      Finish(r, begun);
      LawfulIff(begun);
      LawfulIff(db);
      if r.Ok? {
        TopologyOps.MarkLostInv(begun, i, now);
        ReshapedEvolves(begun, db, now);
      } else {
        EvolvesSelf(begun, now, None, None);
      }
    }

    method SubmitBatch(batch: Id, specs: seq<W.TaskSpec>, now: real) returns (r: Outcome<()>)
      requires Valid()
      modifies this
      ensures Valid() && Evolves(old(db), db, now, None, None)
      ensures Committed(W.SubmitBatch(old(db), batch, specs, now), r, old(db), db)
      ensures r.Ok? ==> forall j | 0 <= j < |specs| ::
        specs[j].id in db.tasks && Submissions.Carries(db.tasks[specs[j].id], specs[j], specs, batch, now)
    {
      var begun := db;
      r := SubmitSteps(batch, specs, now);
      Finish(r, begun);
      LawfulIff(begun);
      LawfulIff(db);
      if r.Ok? {
        Submissions.SubmitCarries(begun, batch, specs, now);
        SubmitOps.SubmitInv(begun, batch, specs, now);
        HistoryOps.SubmitEvolves(begun, batch, specs, now);
      } else {
        EvolvesSelf(begun, now, None, None);
      }
    }

    /** Joins the first compatible pair of all, and never a WRITE task whose workspace may still
        be written to. */
    method ClaimNextAvailable(attempt: Id, leaseSeconds: real, now: real) returns (r: Outcome<Option<(Id, Id)>>)
      requires Valid()
      modifies this
      ensures Valid() && Evolves(old(db), db, now, None, None)
      ensures match W.ClaimNextAvailable(old(db), attempt, leaseSeconds, now)
        case Ok((s, pair)) => r == Ok(pair) && db == s
        case Err(e) => r == Err(e) && db == old(db)
      ensures r.Ok? && r.value.Some? ==> ClaimChoice.IsFirst(old(db), r.value.value.0, r.value.value.1, now)
      ensures r.Ok? && r.value.Some? ==>
        Leases.Granted(old(db), db, r.value.value.0, r.value.value.1, attempt, leaseSeconds, now)
      ensures r.Ok? && r.value.Some? ==> Safety.Vacant(old(db), r.value.value.0)
    {
      var begun := db;
      r := ClaimAvailableSteps(attempt, leaseSeconds, now);
      if r.Err? {
        db := begun;
        EvolvesSelf(begun, now, None, None);
      } else {
        LawfulIff(begun);
        LawfulIff(db);
        ClaimOps.NextAvailableInv(begun, attempt, leaseSeconds, now);
        ClaimOps.NextAvailableResult(begun, attempt, leaseSeconds, now);
        HistoryOps.ClaimResultEvolves(begun, db, r.value, attempt, leaseSeconds, now);
        ClaimChoice.NextAvailableOptimal(begun, attempt, leaseSeconds, now);
        if r.value.Some? {
          Leases.ClaimGrants(begun, r.value.value.0, r.value.value.1, attempt, leaseSeconds, now);
        }
        Safety.ClaimedVacant(begun, db, r.value, attempt, leaseSeconds, now);
      }
    }

    /** Gives an idle agent its best offer, under the same guard. */
    method ClaimNext(g: Id, attempt: Id, leaseSeconds: real, now: real) returns (r: Outcome<Option<Id>>)
      requires Valid()
      modifies this
      ensures Valid() && Evolves(old(db), db, now, None, None)
      ensures match W.ClaimNext(old(db), g, attempt, leaseSeconds, now)
        case Ok((s, t)) => r == Ok(t) && db == s
        case Err(e) => r == Err(e) && db == old(db)
      ensures r.Ok? && r.value.Some? ==> ClaimChoice.IsBestOffer(old(db), r.value.value, g, now)
      ensures r.Ok? && r.value.Some? ==> Leases.Granted(old(db), db, r.value.value, g, attempt, leaseSeconds, now)
      ensures r.Ok? && r.value.Some? ==> Safety.Vacant(old(db), r.value.value)
    {
      var begun := db;
      r := ClaimNextSteps(g, attempt, leaseSeconds, now);
      if r.Err? {
        db := begun;
        EvolvesSelf(begun, now, None, None);
      } else {
        LawfulIff(begun);
        LawfulIff(db);
        ghost var pair := if r.value.None? then None else Some((r.value.value, g));
        ClaimOps.ClaimNextInv(begun, g, attempt, leaseSeconds, now);
        ClaimOps.ClaimNextResult(begun, g, attempt, leaseSeconds, now);
        HistoryOps.ClaimResultEvolves(begun, db, pair, attempt, leaseSeconds, now);
        ClaimChoice.ClaimNextOptimal(begun, g, attempt, leaseSeconds, now);
        if r.value.Some? {
          Leases.ClaimGrants(begun, r.value.value, g, attempt, leaseSeconds, now);
        }
        Safety.ClaimedVacant(begun, db, pair, attempt, leaseSeconds, now);
      }
    }

    method CreateExecution(a: Id, epoch: nat, target: Id, isolated: bool, x: Id, drawn: Id, now: real)
      returns (r: Outcome<()>)
      requires Valid()
      modifies this
      ensures Valid() && Evolves(old(db), db, now, None, None)
      ensures Committed(W.CreateExecution(old(db), a, epoch, target, isolated, x, drawn, now), r, old(db), db)
      ensures r.Ok? ==> Witnessed.Recorded(old(db), db, Runs.Working(Runs.Create(a, epoch, target, isolated, x, drawn)))
      ensures !W.Authority(old(db), a, epoch, now) ==> r.Err? && db == old(db)
    {
      var begun := db;
      r := CreateSteps(a, epoch, target, isolated, x, drawn, now);
      Finish(r, begun);
      LawfulIff(begun);
      LawfulIff(db);
      if r.Ok? {
        Witnessed.CreateRecorded(begun, a, epoch, target, isolated, x, drawn, now);
        ExecutionOps.CreateInv(begun, a, epoch, target, isolated, x, drawn, now);
        HistoryOps.CreateEvolves(begun, a, epoch, target, isolated, x, drawn, now);
      } else {
        EvolvesSelf(begun, now, None, None);
      }
    }

    method ConfirmRunning(a: Id, epoch: nat, x: Id, leaseSeconds: real, now: real) returns (r: Outcome<()>)
      requires Valid()
      modifies this
      ensures Valid() && Evolves(old(db), db, now, None, None)
      ensures Committed(W.ConfirmRunning(old(db), a, epoch, x, leaseSeconds, now), r, old(db), db)
      ensures !W.Authority(old(db), a, epoch, now) ==> r.Err? && db == old(db)
    {
      ghost var begun := db;
      r := ConfirmSteps(a, epoch, x, leaseSeconds, now);
      LawfulIff(begun);
      LawfulIff(db);
      if r.Ok? {
        QuietOps.ConfirmInv(begun, a, epoch, x, leaseSeconds, now);
        QuietOps.AuthorityHeld(begun, a, epoch, now);
        HistoryOps.ConfirmEvolves(begun, a, epoch, x, leaseSeconds, now);
      } else {
        EvolvesSelf(begun, now, None, None);
      }
    }

    method RecordStartAmbiguity(a: Id, epoch: nat, x: Id, now: real) returns (r: Outcome<()>)
      requires Valid()
      modifies this
      ensures Valid() && Evolves(old(db), db, now, None, None)
      ensures Committed(W.RecordStartAmbiguity(old(db), a, epoch, x, now), r, old(db), db)
      ensures !W.Authority(old(db), a, epoch, now) ==> r.Err? && db == old(db)
    {
      ghost var begun := db;
      r := AmbiguitySteps(a, epoch, x, now);
      LawfulIff(begun);
      LawfulIff(db);
      if r.Ok? {
        QuietOps.AmbiguityInv(begun, a, epoch, x, now);
        HistoryOps.AmbiguityEvolves(begun, a, epoch, x, now);
      } else {
        EvolvesSelf(begun, now, None, None);
      }
    }

    method RecordPhysicalOutcome(x: Id, state: ExecutionState, terminal: bool, quiescent: bool) returns (r: Outcome<()>)
      requires Valid()
      modifies this
      ensures Valid()
      ensures Committed(W.RecordPhysicalOutcome(old(db), x, state, terminal, quiescent), r, old(db), db)
    {
      ghost var begun := db;
      r := ObserveSteps(x, state, terminal, quiescent);
      LawfulIff(begun);
      LawfulIff(db);
      if r.Ok? {
        QuietOps.PhysicalInv(begun, x, state, terminal, quiescent);
      }
    }

    method Heartbeat(a: Id, epoch: nat, leaseSeconds: real, now: real) returns (r: Outcome<()>)
      requires Valid()
      modifies this
      ensures Valid() && Evolves(old(db), db, now, None, None)
      ensures Committed(W.Heartbeat(old(db), a, epoch, leaseSeconds, now), r, old(db), db)
      ensures !W.Authority(old(db), a, epoch, now) ==> r.Err? && db == old(db)
    {
      ghost var begun := db;
      r := HeartbeatSteps(a, epoch, leaseSeconds, now);
      LawfulIff(begun);
      LawfulIff(db);
      if r.Ok? {
        QuietOps.HeartbeatInv(begun, a, epoch, leaseSeconds, now);
        HistoryOps.HeartbeatEvolves(begun, a, epoch, leaseSeconds, now);
      } else {
        EvolvesSelf(begun, now, None, None);
      }
    }

    method PromoteCheckpoint(a: Id, epoch: nat, capsule: W.Capsule, now: real) returns (r: Outcome<()>)
      requires Valid()
      modifies this
      ensures Valid() && Evolves(old(db), db, now, None, None)
      ensures Committed(W.PromoteCheckpoint(old(db), a, epoch, capsule, now), r, old(db), db)
      ensures !W.Authority(old(db), a, epoch, now) ==> r.Err? && db == old(db)
    {
      ghost var begun := db;
      r := CheckpointSteps(a, epoch, capsule, now);
      LawfulIff(begun);
      LawfulIff(db);
      if r.Ok? {
        QuietOps.CheckpointInv(begun, a, epoch, capsule, now);
        HistoryOps.CheckpointEvolves(begun, a, epoch, capsule, now);
      } else {
        EvolvesSelf(begun, now, None, None);
      }
    }

    method AckResult(result: Id) returns (r: Outcome<()>)
      requires Valid()
      modifies this
      ensures Valid()
      ensures Committed(W.AckResult(old(db), result), r, old(db), db)
    {
      ghost var begun := db;
      r := AckRowSteps(result);
      LawfulIff(begun);
      LawfulIff(db);
      if r.Ok? {
        QuietOps.AckResultInv(begun, result);
      }
    }

    method AckSuccess(a: Id, epoch: nat, supplied: Option<Id>, capsule: W.Capsule, quiescent: bool, reusable: bool,
                      drawn: W.Drawn, now: real) returns (r: Outcome<()>)
      requires Valid()
      modifies this
      ensures Valid() && Evolves(old(db), db, now, None, None)
      ensures Committed(W.AckSuccess(old(db), a, epoch, supplied, capsule, quiescent, reusable, drawn, now), r,
                        old(db), db)
      ensures r.Ok? ==> Finishing.Acked(old(db), db, a, capsule, quiescent, drawn.result, now)
      ensures !W.Authority(old(db), a, epoch, now) ==> r.Err? && db == old(db)
    {
      var begun := db;
      r := AckSteps(a, epoch, supplied, capsule, quiescent, reusable, drawn, now);
      Finish(r, begun);
      LawfulIff(begun);
      LawfulIff(db);
      if r.Ok? {
        Finishing.AckEnds(begun, a, epoch, supplied, capsule, quiescent, reusable, drawn, now);
        SettleOps.AckInv(begun, a, epoch, supplied, capsule, quiescent, reusable, drawn, now);
      } else {
        EvolvesSelf(begun, now, None, None);
      }
    }

    method Nack(a: Id, epoch: nat, supplied: Option<Id>, report: W.Report, drawn: W.Drawn, at: real, now: real)
      returns (r: Outcome<()>)
      requires Valid()
      modifies this
      ensures Valid() && Evolves(old(db), db, now, None, None)
      ensures Committed(W.Nack(old(db), a, epoch, supplied, report, drawn, at, now), r, old(db), db)
      ensures r.Ok? ==> Failures.Failed(old(db), db, a, report, at)
      ensures !W.Authority(old(db), a, epoch, now) ==> r.Err? && db == old(db)
    {
      var begun := db;
      r := NackSteps(a, epoch, supplied, report, drawn, at, now);
      Finish(r, begun);
      LawfulIff(begun);
      LawfulIff(db);
      if r.Ok? {
        Failures.NackFails(begun, a, epoch, supplied, report, drawn, at, now);
        SettleOps.NackInv(begun, a, epoch, supplied, report, drawn, at, now);
      } else {
        EvolvesSelf(begun, now, None, None);
      }
    }

    method ExpireLeases(unstarted: bool, draw: nat -> W.Drawn, now: real) returns (r: Outcome<()>)
      requires Valid()
      modifies this
      ensures Valid() && Evolves(old(db), db, now, None, None)
      ensures Committed(W.ExpireLeases(old(db), unstarted, draw, now), r, old(db), db)
      ensures r.Ok? ==> Failures.Expired(old(db), db, unstarted, now)
    {
      var begun := db;
      r := ExpireSteps(unstarted, draw, now);
      Finish(r, begun);
      LawfulIff(begun);
      LawfulIff(db);
      if r.Ok? {
        Failures.ExpiryEnds(begun, unstarted, draw, now);
        SettleOps.ExpireInv(begun, unstarted, draw, now);
      } else {
        EvolvesSelf(begun, now, None, None);
      }
    }

    method CancelTask(t: Id, confirmed: bool, drawn: W.Drawn, now: real) returns (r: Outcome<()>)
      requires Valid()
      modifies this
      ensures Valid() && Evolves(old(db), db, now, None, None)
      ensures Committed(W.CancelTask(old(db), t, confirmed, drawn, now), r, old(db), db)
      ensures r.Ok? ==> Finishing.TaskCancelled(old(db), db, t, confirmed, now)
    {
      var begun := db;
      r := CancelTaskSteps(t, confirmed, drawn, now);
      Finish(r, begun);
      LawfulIff(begun);
      LawfulIff(db);
      if r.Ok? {
        Finishing.CancelEnds(begun, t, confirmed, drawn, now);
        CancelOps.CancelTaskInv(begun, t, confirmed, drawn, now);
      } else {
        EvolvesSelf(begun, now, None, None);
      }
    }

    method CancelBatch(b: Id, draw: nat -> W.Drawn, now: real) returns (r: Outcome<()>)
      requires Valid()
      modifies this
      ensures Valid() && Evolves(old(db), db, now, None, None)
      ensures Committed(W.CancelBatch(old(db), b, draw, now), r, old(db), db)
      ensures r.Ok? ==> Finishing.BatchCancelled(old(db), db, b, now)
    {
      var begun := db;
      r := CancelBatchSteps(b, draw, now);
      Finish(r, begun);
      LawfulIff(begun);
      LawfulIff(db);
      if r.Ok? {
        Finishing.CancelBatchEnds(begun, b, draw, now);
        CancelOps.CancelBatchInv(begun, b, draw, now);
      } else {
        EvolvesSelf(begun, now, None, None);
      }
    }

    method ResolveEscalation(k: Id, how: W.Resolution, confirmed: bool, notice: Id, now: real) returns (r: Outcome<()>)
      requires Valid()
      modifies this
      ensures Valid()
      ensures Evolves(old(db), db, now, if r.Ok? then ResolveOps.Pardoned(old(db), k, how) else None,
                      if r.Ok? && !how.CancelIt? then Some(k) else None)
      ensures Committed(W.ResolveEscalation(old(db), k, how, confirmed, notice, now), r, old(db), db)
      ensures r.Ok? <==> Resolutions.Resolvable(old(db), k, how, confirmed)
      ensures r.Ok? ==> Resolutions.ResolveDone(old(db), db, k, how, confirmed)
    {
      var begun := db;
      r := ResolveSteps(k, how, confirmed, notice, now);
      Finish(r, begun);
      LawfulIff(begun);
      LawfulIff(db);
      Resolutions.ResolveExactly(begun, k, how, confirmed, notice, now);
      if r.Ok? {
        ResolveOps.ResolveInv(begun, k, how, confirmed, notice, now);
      } else {
        EvolvesSelf(begun, now, None, None);
      }
    }

    method RenewActiveLeases(supervised: set<Id>, leaseSeconds: real, now: real)
      requires Valid()
      modifies this
      ensures Valid() && Evolves(old(db), db, now, None, None)
      ensures db == W.RenewActiveLeases(old(db), supervised, leaseSeconds, now)
    {
      ghost var begun := db;
      RenewSteps(supervised, leaseSeconds, now);
      LawfulIff(begun);
      LawfulIff(db);
      QuietOps.RenewInv(begun, supervised, leaseSeconds, now);
      HistoryOps.RenewEvolves(begun, supervised, leaseSeconds, now);
    }

    method PromoteRetryWait(now: real)
      requires Valid()
      modifies this
      ensures Valid() && Evolves(old(db), db, now, None, None)
      ensures db == W.PromoteRetryWait(old(db), now)
    {
      ghost var begun := db;
      PromoteSteps(now);
      LawfulIff(begun);
      LawfulIff(db);
      QuietOps.PromoteRetryInv(begun, now);
      HistoryOps.PromoteRetryEvolves(begun, now);
    }
  }
}
