/** Each topology operation, from any state that satisfies the invariant. */
module TopologyOps {
  import opened Options
  import opened RowOrder
  import opened Tables
  import opened Topology
  import opened Work
  import opened Invariants
  import opened TopologyProofs
  import opened ReshapeProofs

  /** Nobody can tell two partition tables apart that agree on names and activity. */
  lemma SameActivity(s: Db, parts: map<Id, Partition>)
    requires AgentsPlaced(s.agents, s.partitions) && TasksPlaced(s.tasks, s.partitions)
    requires forall p | p in s.partitions :: p in parts && parts[p].active == s.partitions[p].active
    ensures AgentsPlaced(s.agents, parts) && TasksPlaced(s.tasks, parts)
  {
    forall g | g in s.agents ensures AgentPlaced(s.agents[g], parts) {
      assert AgentPlaced(s.agents[g], s.partitions);
    }
  }

  lemma AddedOrder(parts: map<Id, Partition>, revision: nat, name: Id, row: Partition)
    requires MergeOrdered(parts, revision) && name !in parts
    requires row.active && row.mergedInto.None? && row.revision == revision + 1
    ensures MergeOrdered(parts[name := row], revision + 1)
  {
  }

  lemma UpsertTopology(s: Db, spec: PartitionSpec)
    requires TopologyOk(s) && UpsertPartition(s, spec).Ok?
    ensures var s' := UpsertPartition(s, spec).value;
      TopologyOk(s') && Reshaped(s, s') && s'.agents == s.agents && s'.tasks == s.tasks
  {
    if spec.name !in s.partitions {
      SameActivity(s, UpsertPartition(s, spec).value.partitions);
      AddedOrder(s.partitions, s.revision, spec.name, UpsertPartition(s, spec).value.partitions[spec.name]);
    }
  }

  lemma UpsertInv(s: Db, spec: PartitionSpec)
    requires Inv(s) && UpsertPartition(s, spec).Ok?
    ensures Inv(UpsertPartition(s, spec).value) && Reshaped(s, UpsertPartition(s, spec).value)
  {
    UpsertTopology(s, spec);
    PartitionsInv(s, UpsertPartition(s, spec).value);
  }

  lemma ResizeTopology(s: Db, name: Id, desired: int)
    requires TopologyOk(s) && ResizePartition(s, name, desired).Ok?
    ensures var s' := ResizePartition(s, name, desired).value; TopologyOk(s') && Reshaped(s, s')
  {
    SameActivity(s, ResizePartition(s, name, desired).value.partitions);
  }

  /** Only the partitions changed. */
  lemma PartitionsInv(s: Db, s': Db)
    requires Inv(s) && Reshaped(s, s') && TopologyOk(s') && s'.tasks == s.tasks && s'.agents == s.agents
    ensures Inv(s')
  {
    ReshapedInv(s, s');
  }

  lemma ResizeInv(s: Db, name: Id, desired: int)
    requires Inv(s) && ResizePartition(s, name, desired).Ok?
    ensures Inv(ResizePartition(s, name, desired).value) && Reshaped(s, ResizePartition(s, name, desired).value)
  {
    ResizeTopology(s, name, desired);
    PartitionsInv(s, ResizePartition(s, name, desired).value);
  }

  lemma BirthInv(s: Db, id: Id, name: Id, workstream: Option<Id>, tags: Option<set<Id>>, now: real)
    requires Inv(s) && BirthAgent(s, id, name, workstream, tags, now).Ok?
    ensures Inv(BirthAgent(s, id, name, workstream, tags, now).value)
      && Reshaped(s, BirthAgent(s, id, name, workstream, tags, now).value)
  {
    InvAgentsOk(s);
    BirthMoves(s, id, name, workstream, tags, now);
    MovedInv(s, BirthAgent(s, id, name, workstream, tags, now).value);
  }

  lemma MoveAgentInv(s: Db, g: Id, name: Id, now: real)
    requires Inv(s) && MoveAgent(s, g, name, now).Ok?
    ensures Inv(MoveAgent(s, g, name, now).value) && Reshaped(s, MoveAgent(s, g, name, now).value)
  {
    InvAgentsOk(s);
    MoveAgentMoves(s, g, name, now);
    MovedInv(s, MoveAgent(s, g, name, now).value);
  }

  lemma ReviveInv(s: Db, g: Id, target: Id, now: real)
    requires Inv(s) && ReviveAgent(s, g, target, now).Ok?
    ensures Inv(ReviveAgent(s, g, target, now).value) && Reshaped(s, ReviveAgent(s, g, target, now).value)
  {
    InvAgentsOk(s);
    ReviveMoves(s, g, target, now);
    MovedInv(s, ReviveAgent(s, g, target, now).value);
  }

  lemma MarkLostInv(s: Db, i: Id, now: real)
    requires Inv(s) && MarkIncarnationLost(s, i, now).Ok?
    ensures Inv(MarkIncarnationLost(s, i, now).value) && Reshaped(s, MarkIncarnationLost(s, i, now).value)
  {
    InvAgentsOk(s);
    MarkLostMoves(s, i, now);
    MovedInv(s, MarkIncarnationLost(s, i, now).value);
  }

  lemma ShiftedOrder(parts: map<Id, Partition>, revision: nat, p: Id, desired: nat, q: Id, desired': nat)
    requires MergeOrdered(parts, revision) && ActivePartition(parts, p) && ActivePartition(parts, q)
    ensures MergeOrdered(parts[p := parts[p].(desired := desired, revision := revision + 1)]
                              [q := parts[q].(desired := desired', revision := revision + 1)], revision + 1)
  {
  }

  lemma ShiftedTopology(s: Db, source: Id, target: Id, count: nat)
    requires TopologyOk(s) && source != target && ActivePartition(s.partitions, source)
      && ActivePartition(s.partitions, target)
    requires count <= s.partitions[source].desired
    ensures var s0 := Shifted(s, source, target, count);
      TopologyOk(s0) && Reshaped(s, s0)
  {
    var s0 := Shifted(s, source, target, count);
    SameActivity(s, s0.partitions);
    ShiftedOrder(s.partitions, s.revision, source, s.partitions[source].desired - count, target,
                 s.partitions[target].desired + count);
  }

  lemma ShiftedInv(s: Db, source: Id, target: Id, count: nat)
    requires Inv(s) && source != target && ActivePartition(s.partitions, source)
      && ActivePartition(s.partitions, target)
    requires count <= s.partitions[source].desired
    ensures Inv(Shifted(s, source, target, count)) && Reshaped(s, Shifted(s, source, target, count))
  {
    ShiftedTopology(s, source, target, count);
    KeptHomes(s.tasks, s.tasks, s.agents, s.agents);
    ReshapedInv(s, Shifted(s, source, target, count));
  }

  lemma MoveListMoves(s: Db, source: Id, count: nat, target: Id, now: real)
    requires AgentsOk(s.agents, s.partitions) && ActivePartition(s.partitions, target)
    ensures var all := Listing(MoveRows(s.agents, source));
      var r := MoveEach(s, all[..if count <= |all| then count else |all|], target, now);
      r.Ok? ==> Moved(s, r.value) && AgentsOk(r.value.agents, r.value.partitions)
  {
    var all := Listing(MoveRows(s.agents, source));
    var list := all[..if count <= |all| then count else |all|];
    if MoveEach(s, list, target, now).Ok? {
      forall g | g in list ensures g in s.agents && !s.agents[g].state.Retired? {
        assert g in all;
      }
      MoveEachMoves(s, list, target, now);
    }
  }

  lemma MoveCapacityInv(s: Db, source: Id, target: Id, count: int, now: real)
    requires Inv(s) && MoveCapacity(s, source, target, count, now).Ok?
    ensures Inv(MoveCapacity(s, source, target, count, now).value)
      && Reshaped(s, MoveCapacity(s, source, target, count, now).value)
  {
    ShiftedInv(s, source, target, count);
    var s0 := Shifted(s, source, target, count);
    InvAgentsOk(s0);
    MoveListMoves(s0, source, count, target, now);
    MovedInv(s0, MoveCapacity(s, source, target, count, now).value);
    ReshapedTrans(s, s0, MoveCapacity(s, source, target, count, now).value);
  }

  // ---------------------------------------------------------------- reconciliation

  lemma NoIdleDrains(s: Db)
    requires Inv(s)
    ensures IdleDrains(s.agents) == []
  {
    InvAgentsOk(s);
    assert forall g :: g !in IdleDrains(s.agents);
  }

  lemma SurplusMembers(agents: map<Id, Agent>, name: Id, n: nat)
    requires n <= |Members(agents, name)|
    ensures var list := Surplus(agents, name, n);
      |list| == n && Distinct(list) && forall g | g in list :: g in agents && Counted(agents[g], name)
  {
    var rows := ExcessRows(agents, Members(agents, name));
    ListingDistinct(rows);
    forall g | g in Surplus(agents, name, n) ensures g in agents && Counted(agents[g], name) {
      assert g in Listing(rows);
    }
  }

  lemma SurplusMoves(s: Db, name: Id, n: nat)
    requires AgentsOk(s.agents, s.partitions) && n <= |Members(s.agents, name)|
    ensures var s' := ShedEach(s, Surplus(s.agents, name, n)); Moved(s, s') && AgentsOk(s'.agents, s'.partitions)
  {
    SurplusMembers(s.agents, name, n);
    ShedEachMoves(s, Surplus(s.agents, name, n));
  }

  lemma ReconcilePartitionMoves(s: Db, name: Id, born: nat, draw: nat -> Id, now: real)
    requires AgentsOk(s.agents, s.partitions) && name in s.partitions
      && ReconcilePartition(s, name, born, draw, now).Ok?
    ensures var s' := ReconcilePartition(s, name, born, draw, now).value;
      Moved(s, s') && AgentsOk(s'.agents, s'.partitions)
  {
    if ExcessIn(s, name) == 0 {
      BirthEachMoves(s, name, BornIn(s, name), born, draw, now);
    } else {
      SurplusMoves(s, name, ExcessIn(s, name));
    }
  }

  lemma ReconcileNextMoves(s: Db, name: Id, born: nat, draw: nat -> Id, now: real)
    requires AgentsOk(s.agents, s.partitions) && ReconcileNext(s, name, born, draw, now).Ok?
    ensures var s' := ReconcileNext(s, name, born, draw, now).value.0;
      Moved(s, s') && AgentsOk(s'.agents, s'.partitions)
  {
    ReconcilePartitionMoves(s, name, born, draw, now);
  }

  lemma {:induction false} ReconcileEachMoves(s: Db, names: seq<Id>, born: nat, draw: nat -> Id, now: real)
    requires AgentsOk(s.agents, s.partitions) && ReconcileEach(s, names, born, draw, now).Ok?
    ensures var s' := ReconcileEach(s, names, born, draw, now).value; Moved(s, s') && AgentsOk(s'.agents, s'.partitions)
    decreases |names|
  {
    if names != [] {
      ReconcileNextMoves(s, names[0], born, draw, now);
      var (s1, next) := ReconcileNext(s, names[0], born, draw, now).value;
      ReconcileEachMoves(s1, names[1..], next, draw, now);
      MovedTrans(s, s1, ReconcileEach(s1, names[1..], next, draw, now).value);
    }
  }

  lemma ReconcileInv(s: Db, draw: nat -> Id, now: real)
    requires Inv(s) && ReconcilePool(s, draw, now).Ok?
    ensures Inv(ReconcilePool(s, draw, now).value) && Reshaped(s, ReconcilePool(s, draw, now).value)
  {
    NoIdleDrains(s);
    InvAgentsOk(s);
    ReconcileEachMoves(s, ById(ActiveNames(s.partitions)), 0, draw, now);
    MovedInv(s, ReconcilePool(s, draw, now).value);
  }

  lemma {:induction false} ServeEachMoves(s: Db, list: seq<Id>, born: nat, draw: nat -> Id, now: real)
    requires AgentsOk(s.agents, s.partitions) && ServeEach(s, list, born, draw, now).Ok?
    ensures var s' := ServeEach(s, list, born, draw, now).value; Moved(s, s') && AgentsOk(s'.agents, s'.partitions)
    decreases |list|
  {
    if list != [] {
      if NeedsConsumer(s, list[0]) {
        var task := s.tasks[list[0]];
        var tags := s.partitions[task.partition].tags + task.tags;
        BirthMoves(s, draw(born), task.partition, task.workstream, Some(tags), now);
        var s1 := BirthAgent(s, draw(born), task.partition, task.workstream, Some(tags), now).value;
        ServeEachMoves(s1, list[1..], born + 1, draw, now);
        MovedTrans(s, s1, ServeEach(s, list, born, draw, now).value);
      } else {
        ServeEachMoves(s, list[1..], born, draw, now);
      }
    }
  }

  lemma EnsureInv(s: Db, draw: nat -> Id, now: real)
    requires Inv(s) && EnsureTaskConsumers(s, draw, now).Ok?
    ensures Inv(EnsureTaskConsumers(s, draw, now).value) && Reshaped(s, EnsureTaskConsumers(s, draw, now).value)
  {
    InvAgentsOk(s);
    ServeEachMoves(s, Listing(QueuedRows(s)), 0, draw, now);
    MovedInv(s, EnsureTaskConsumers(s, draw, now).value);
  }

  // ---------------------------------------------------------------- merge

  lemma {:induction false} MergeEachMoves(s: Db, list: seq<Id>, source: Id, target: Id, now: real)
    requires AgentsOk(s.agents, s.partitions) && source != target && ActivePartition(s.partitions, target)
    requires forall g | g in list :: g in s.agents && !Engaged(s.agents[g]) && !s.agents[g].state.Suspended?
    requires MergeEach(s, list, source, target, now).Ok?
    ensures var s' := MergeEach(s, list, source, target, now).value;
      && Moved(s, s') && AgentsOk(s'.agents, s'.partitions) && s'.agents.Keys == s.agents.Keys
      && (forall g | g in s.agents && g !in list :: s'.agents[g] == s.agents[g])
      && (forall g | g in list :: g in s'.agents && s'.agents[g].partition == target && s'.agents[g].pending.None?)
    decreases |list|
  {
    if list != [] {
      var g := list[0];
      assert AgentPlaced(s.agents[g], s.partitions);
      ResolveSelf(s.partitions, target);
      RequestMoves(s, g, target, now);
      var s1 := MergeOne(s, g, source, target, now).value;
      forall h | h in list[1..] ensures h in s1.agents && !Engaged(s1.agents[h]) && !s1.agents[h].state.Suspended? {
        assert h in list;
      }
      MergeEachMoves(s1, list[1..], source, target, now);
      MovedTrans(s, s1, MergeEach(s1, list[1..], source, target, now).value);
    }
  }

  lemma RebasePlaced(tasks: map<Id, Task>, agents: map<Id, Agent>, parts: map<Id, Partition>, source: Id, target: Id)
    requires TasksPlaced(tasks, parts) && AgentsPlaced(agents, parts) && ActivePartition(parts, target)
    ensures TasksPlaced(RebaseTasks(tasks, source, target), parts) && Alike(tasks, RebaseTasks(tasks, source, target))
    ensures AgentsPlaced(RebasePending(agents, source, target), parts)
      && AgentsKept(agents, RebasePending(agents, source, target))
  {
    var agents' := RebasePending(agents, source, target);
    forall g | g in agents' ensures AgentPlaced(agents'[g], parts) {
      assert AgentPlaced(agents[g], parts);
    }
  }

  lemma StagePlaced(agents: map<Id, Agent>, parts: map<Id, Partition>, source: Id, target: Id)
    requires AgentsPlaced(agents, parts) && ActivePartition(parts, target)
    ensures AgentsPlaced(StageMerged(agents, source, target), parts)
    ensures AgentsKept(agents, StageMerged(agents, source, target))
  {
    var agents' := StageMerged(agents, source, target);
    forall g | g in agents' ensures AgentPlaced(agents'[g], parts) {
      assert AgentPlaced(agents[g], parts);
    }
  }

  /** Members of the source have left it or are told to leave; then it can close. */
  lemma MergedTopology(s: Db, source: Id, target: Id, desired: nat)
    requires TopologyOk(s) && source != target && ActivePartition(s.partitions, source)
      && ActivePartition(s.partitions, target)
    requires forall t | t in s.tasks && !s.tasks[t].Terminal() :: s.tasks[t].partition != source
    requires forall g | g in s.agents && !s.agents[g].state.Retired? :: Desired(s.agents[g]) != source
    requires forall p | p in s.partitions && p != target :: s.partitions[p].revision < s.revision
    ensures var parts := s.partitions
        [source := s.partitions[source].(active := false, desired := 0, mergedInto := Some(target),
                                         revision := s.revision)]
        [target := s.partitions[target].(desired := desired, revision := s.revision)];
      TopologyOk(s.(partitions := parts)) && Reshaped(s, s.(partitions := parts))
  {
    var parts := s.partitions
        [source := s.partitions[source].(active := false, desired := 0, mergedInto := Some(target),
                                         revision := s.revision)]
        [target := s.partitions[target].(desired := desired, revision := s.revision)];
    forall g | g in s.agents ensures AgentPlaced(s.agents[g], parts) {
      assert AgentPlaced(s.agents[g], s.partitions);
    }
  }

  /** After the cutovers and the staging nobody alive still wants the source. */
  lemma MergeLeavesSource(agents: map<Id, Agent>, agents1: map<Id, Agent>, list: seq<Id>, source: Id, target: Id)
    requires source != target && agents1.Keys == agents.Keys
    requires var before := RebasePending(agents, source, target);
      && (forall g | g in agents && g !in list :: agents1[g] == before[g])
      && (forall g | g in list :: g in agents1 && agents1[g].partition == target && agents1[g].pending.None?)
      && (forall g :: g in list <==> g in before && Immediate(before[g], source))
    ensures var after := StageMerged(agents1, source, target);
      forall g | g in after && !after[g].state.Retired? :: Desired(after[g]) != source
  {
  }

  lemma ReshapedTrans(s: Db, s': Db, s'': Db)
    requires Reshaped(s, s') && Reshaped(s', s'')
    ensures Reshaped(s, s'')
  {
    forall g | g in s.agents ensures g in s''.agents && RowKept(s.agents[g], s''.agents[g]) {
      assert RowKept(s.agents[g], s'.agents[g]) && RowKept(s'.agents[g], s''.agents[g]);
    }
    forall g | g in s''.agents && g !in s.agents
      ensures s''.agents[g].current.None? && !Engaged(s''.agents[g]) && !s''.agents[g].state.Suspended? {
      assert g in s'.agents ==> RowKept(s'.agents[g], s''.agents[g]);
    }
  }

  lemma RebaseReshapes(s: Db, source: Id, target: Id)
    requires TopologyOk(s) && AgentsOk(s.agents, s.partitions) && ActivePartition(s.partitions, target)
    ensures var s0 := Rebased(s, source, target);
      Reshaped(s, s0) && TopologyOk(s0) && AgentsOk(s0.agents, s0.partitions)
  {
    RebasePlaced(s.tasks, s.agents, s.partitions, source, target);
  }

  lemma MergeMembersReshape(s0: Db, source: Id, target: Id, now: real)
    requires TopologyOk(s0) && AgentsOk(s0.agents, s0.partitions) && source != target
      && ActivePartition(s0.partitions, target)
    requires MergeEach(s0, ImmediateList(s0.agents, source), source, target, now).Ok?
    ensures var s1 := MergeEach(s0, ImmediateList(s0.agents, source), source, target, now).value;
      var s2 := s1.(agents := StageMerged(s1.agents, source, target));
      && Reshaped(s0, s2) && TopologyOk(s2) && s2.partitions == s0.partitions && s2.revision == s0.revision
        && s2.tasks == s0.tasks
      && s1.agents.Keys == s0.agents.Keys && AgentsKept(s0.agents, s1.agents)
      && (forall g | g in s0.agents && g !in ImmediateList(s0.agents, source) :: s1.agents[g] == s0.agents[g])
      && (forall g | g in ImmediateList(s0.agents, source) ::
        g in s1.agents && s1.agents[g].partition == target && s1.agents[g].pending.None?)
  {
    var list := ImmediateList(s0.agents, source);
    MergeEachMoves(s0, list, source, target, now);
    var s1 := MergeEach(s0, list, source, target, now).value;
    StagePlaced(s1.agents, s1.partitions, source, target);
    ReshapedTrans(s0, s1, s1.(agents := StageMerged(s1.agents, source, target)));
  }

  lemma CloseReshapes(s: Db, s2: Db, source: Id, target: Id, desired: nat)
    requires MergeOrdered(s.partitions, s.revision) && TopologyOk(s2)
    requires s2.partitions == s.partitions && s2.revision == s.revision + 1
      && s2.tasks == RebaseTasks(s.tasks, source, target)
    requires source != target && ActivePartition(s.partitions, source) && ActivePartition(s.partitions, target)
    requires forall g | g in s2.agents && !s2.agents[g].state.Retired? :: Desired(s2.agents[g]) != source
    ensures Reshaped(s2, CloseSource(s2, source, target, desired))
      && TopologyOk(CloseSource(s2, source, target, desired))
  {
    MergedTopology(s2, source, target, desired);
  }

  lemma MergeKeepsHomes(tasks: map<Id, Task>, agents: map<Id, Agent>, parts: map<Id, Partition>,
                        agents1: map<Id, Agent>,
                        source: Id, target: Id)
    requires AgentsOk(agents, parts) && Homes(tasks, agents) && agents1.Keys == agents.Keys
    requires AgentsKept(RebasePending(agents, source, target), agents1)
    requires var before := RebasePending(agents, source, target);
      forall g | g in before && g !in ImmediateList(before, source) :: agents1[g] == before[g]
    ensures Homes(RebaseTasks(tasks, source, target), StageMerged(agents1, source, target))
  {
    var before := RebasePending(agents, source, target);
    forall g | g in agents1 ensures agents1[g].current == agents[g].current {
      assert RowKept(before[g], agents1[g]);
    }
    forall g | g in agents && Engaged(agents[g]) ensures agents1[g] == before[g] {
      assert AgentPlaced(agents[g], parts);
      assert !Immediate(before[g], source);
    }
    MergeHomes(tasks, agents, agents1, source, target);
  }

  /** The tables of a merge before its source is closed. */
  ghost function Staged(s: Db, source: Id, target: Id, now: real): Db
    requires MergePartitions(s, source, target, now).Ok?
  {
    var s0 := Rebased(s, source, target);
    var s1 := MergeEach(s0, ImmediateList(s0.agents, source), source, target, now).value;
    s1.(agents := StageMerged(s1.agents, source, target))
  }

  lemma MergeStaged(s: Db, source: Id, target: Id, now: real)
    requires TopologyOk(s) && AgentsOk(s.agents, s.partitions) && Homes(s.tasks, s.agents)
      && MergePartitions(s, source, target, now).Ok?
    ensures var s2 := Staged(s, source, target, now);
      && Reshaped(Rebased(s, source, target), s2) && TopologyOk(s2) && Homes(s2.tasks, s2.agents)
      && s2.partitions == s.partitions && s2.revision == s.revision + 1
      && s2.tasks == RebaseTasks(s.tasks, source, target)
      && forall g | g in s2.agents && !s2.agents[g].state.Retired? :: Desired(s2.agents[g]) != source
  {
    RebaseReshapes(s, source, target);
    var s0 := Rebased(s, source, target);
    MergeMembersReshape(s0, source, target, now);
    var s1 := MergeEach(s0, ImmediateList(s0.agents, source), source, target, now).value;
    MergeLeavesSource(s.agents, s1.agents, ImmediateList(s0.agents, source), source, target);
    MergeKeepsHomes(s.tasks, s.agents, s.partitions, s1.agents, source, target);
  }

  lemma MergeValue(s: Db, source: Id, target: Id, now: real)
    requires MergePartitions(s, source, target, now).Ok?
    ensures source != target && ActivePartition(s.partitions, source) && ActivePartition(s.partitions, target)
    ensures MergePartitions(s, source, target, now).value
      == CloseSource(Staged(s, source, target, now), source, target,
                     s.partitions[source].desired + s.partitions[target].desired)
  {
  }

  lemma ClosedReshapes(s: Db, s0: Db, s2: Db, source: Id, target: Id, desired: nat)
    requires MergeOrdered(s.partitions, s.revision) && Reshaped(s, s0) && Reshaped(s0, s2) && TopologyOk(s2)
    requires s2.partitions == s.partitions && s2.revision == s.revision + 1
      && s2.tasks == RebaseTasks(s.tasks, source, target)
    requires source != target && ActivePartition(s.partitions, source) && ActivePartition(s.partitions, target)
    requires forall g | g in s2.agents && !s2.agents[g].state.Retired? :: Desired(s2.agents[g]) != source
    ensures var s' := CloseSource(s2, source, target, desired);
      Reshaped(s, s') && TopologyOk(s') && s'.tasks == s2.tasks && s'.agents == s2.agents
  {
    ReshapedTrans(s, s0, s2);
    CloseReshapes(s, s2, source, target, desired);
    ReshapedTrans(s, s2, CloseSource(s2, source, target, desired));
  }

  lemma MergeReshapes(s: Db, source: Id, target: Id, now: real)
    requires TopologyOk(s) && AgentsOk(s.agents, s.partitions) && Homes(s.tasks, s.agents)
      && MergePartitions(s, source, target, now).Ok?
    ensures var s' := MergePartitions(s, source, target, now).value;
      Reshaped(s, s') && TopologyOk(s') && Homes(s'.tasks, s'.agents)
  {
    MergeValue(s, source, target, now);
    RebaseReshapes(s, source, target);
    MergeStaged(s, source, target, now);
    ClosedReshapes(s, Rebased(s, source, target), Staged(s, source, target, now), source, target,
                   s.partitions[source].desired + s.partitions[target].desired);
  }

  /** Nobody engaged is left behind: an agent whose task moved is told to follow. */
  lemma MergeHomes(tasks: map<Id, Task>, agents: map<Id, Agent>, agents1: map<Id, Agent>, source: Id, target: Id)
    requires Homes(tasks, agents) && agents1.Keys == agents.Keys
    requires var before := RebasePending(agents, source, target);
      forall g | g in agents :: Engaged(agents[g]) ==> agents1[g] == before[g]
    requires forall g | g in agents1 ::
      agents1[g].current == agents[g].current && (agents[g].current.Some? ==> Engaged(agents[g]))
    ensures Homes(RebaseTasks(tasks, source, target), StageMerged(agents1, source, target))
  {
  }

  lemma MergeInv(s: Db, source: Id, target: Id, now: real)
    requires Inv(s) && MergePartitions(s, source, target, now).Ok?
    ensures Inv(MergePartitions(s, source, target, now).value)
      && Reshaped(s, MergePartitions(s, source, target, now).value)
  {
    InvAgentsOk(s);
    MergeReshapes(s, source, target, now);
    ReshapedInv(s, MergePartitions(s, source, target, now).value);
  }

  // ---------------------------------------------------------------- retirement of a partition

  /** The guard on open writer-safety obligations also excludes every SUSPENDED agent. */
  lemma NobodySuspended(s: Db, name: Id, now: real)
    requires Escalated(s.tasks, s.agents, s.escalations) && RetirePartition(s, name, now).Ok?
    ensures forall g | g in s.agents && s.agents[g].partition == name :: !s.agents[g].state.Suspended?
  {
    forall g | g in s.agents && s.agents[g].partition == name ensures !s.agents[g].state.Suspended? {
      assert s.agents[g].state.Suspended? ==> HoldOn(s.escalations, g);
    }
  }

  lemma NobodyDeparts(agents: map<Id, Agent>, parts: map<Id, Partition>, name: Id)
    requires AgentsOk(agents, parts)
    requires forall g | g in agents && agents[g].partition == name :: !agents[g].state.Suspended?
    ensures DepartingList(agents, name) == []
  {
    forall g | g in agents ensures !Departing(agents[g], name) {
      assert AgentPlaced(agents[g], parts);
    }
    assert forall g :: g !in DepartingList(agents, name);
  }

  lemma DrainPlaced(agents: map<Id, Agent>, parts: map<Id, Partition>, name: Id)
    requires AgentsPlaced(agents, parts)
    ensures AgentsPlaced(DrainAssigned(agents, name), parts) && AgentsKept(agents, DrainAssigned(agents, name))
  {
    var agents' := DrainAssigned(agents, name);
    forall g | g in agents' ensures AgentPlaced(agents'[g], parts) {
      assert AgentPlaced(agents[g], parts);
    }
  }

  /** Closing a partition nobody is headed for. */
  lemma EmptiedTopology(s: Db, name: Id)
    requires TopologyOk(s) && ActivePartition(s.partitions, name)
    requires forall t | t in s.tasks && !s.tasks[t].Terminal() :: s.tasks[t].partition != name
    requires forall g | g in s.agents && !s.agents[g].state.Retired? :: Desired(s.agents[g]) != name
    ensures Reshaped(s, Emptied(s, name)) && TopologyOk(Emptied(s, name))
  {
    forall g | g in s.agents ensures AgentPlaced(s.agents[g], Emptied(s, name).partitions) {
      assert AgentPlaced(s.agents[g], s.partitions);
    }
  }

  lemma RetireMembers(s: Db, name: Id)
    requires AgentsOk(s.agents, s.partitions)
    requires forall g | g in s.agents && s.agents[g].partition == name :: !s.agents[g].state.Suspended?
    ensures var s2 := RetireEach(s, RetiringList(s.agents, name));
      && Moved(s, s2) && AgentsOk(s2.agents, s2.partitions) && s2.agents.Keys == s.agents.Keys
      && (forall g | g in s.agents :: s2.agents[g] == if IdleRetirement(s.agents[g], name)
        then RetiredRow(s.agents[g]) else s.agents[g])
  {
    RetireEachMoves(s, RetiringList(s.agents, name));
  }

  /** Nobody works on the partition: the task would still be scheduled there. */
  lemma NobodyWorks(s: Db, name: Id, now: real)
    requires Fenced(s.tasks, s.attempts, s.leases) && AgentsEngaged(s.tasks, s.attempts, s.agents)
      && Homes(s.tasks, s.agents)
    requires RetirePartition(s, name, now).Ok?
    ensures forall g | g in s.agents && s.agents[g].partition == name
      && s.agents[g].pending.None? :: !Engaged(s.agents[g])
  {
    forall g | g in s.agents && s.agents[g].partition == name && s.agents[g].pending.None?
      ensures !Engaged(s.agents[g]) {
      assert AgentAssigned(s.tasks, s.attempts, s.agents[g], g);
      assert s.agents[g].current.Some? ==>
        TaskFenced(s.tasks[s.agents[g].current.value], s.attempts, s.agents[g].current.value);
    }
  }

  /** After its idle members retired nobody is headed for the partition. */
  lemma NobodyLeft(agents: map<Id, Agent>, agents2: map<Id, Agent>, name: Id)
    requires agents2.Keys == agents.Keys
    requires forall g | g in agents && agents[g].partition == name && agents[g].pending.None? :: !Engaged(agents[g])
    requires forall g | g in agents && !agents[g].state.Retired? :: agents[g].pending != Some(name)
    requires forall g | g in agents :: agents2[g] == if IdleRetirement(agents[g], name) then RetiredRow(agents[g])
      else agents[g]
    ensures var agents3 := DrainAssigned(agents2, name);
      forall g | g in agents3 && !agents3[g].state.Retired? :: Desired(agents3[g]) != name
  {
  }

  function Vacated(s: Db, name: Id): Db {
    var s2 := RetireEach(s, RetiringList(s.agents, name));
    s2.(agents := DrainAssigned(s2.agents, name))
  }

  lemma VacatedReshapes(s: Db, name: Id)
    requires TopologyOk(s) && AgentsOk(s.agents, s.partitions)
    requires forall g | g in s.agents && s.agents[g].partition == name :: !s.agents[g].state.Suspended?
    requires forall g | g in s.agents && !s.agents[g].state.Retired? :: s.agents[g].pending != Some(name)
    requires forall g | g in s.agents && s.agents[g].partition == name
      && s.agents[g].pending.None? :: !Engaged(s.agents[g])
    ensures var s3 := Vacated(s, name);
      && Reshaped(s, s3) && TopologyOk(s3) && s3.partitions == s.partitions && s3.tasks == s.tasks
        && s3.revision == s.revision
      && forall g | g in s3.agents && !s3.agents[g].state.Retired? :: Desired(s3.agents[g]) != name
  {
    RetireMembers(s, name);
    var s2 := RetireEach(s, RetiringList(s.agents, name));
    NobodyLeft(s.agents, s2.agents, name);
    DrainPlaced(s2.agents, s2.partitions, name);
    ReshapedTrans(s, s2, Vacated(s, name));
  }

  lemma RetirePartitionValue(s: Db, name: Id, now: real)
    requires RetirePartition(s, name, now).Ok? && DepartingList(s.agents, name) == []
    requires Vacated(s, name).partitions == s.partitions
    ensures RetirePartition(s, name, now).value == Emptied(Vacated(s, name), name)
  {
  }

  /** Everybody leaves first; then the row is emptied. */
  lemma RetireVacates(s: Db, name: Id, now: real)
    requires TopologyOk(s) && AgentsOk(s.agents, s.partitions) && Escalated(s.tasks, s.agents, s.escalations)
    requires RetirePartition(s, name, now).Ok?
    requires forall g | g in s.agents && s.agents[g].partition == name
      && s.agents[g].pending.None? :: !Engaged(s.agents[g])
    ensures var s3 := Vacated(s, name);
      && name in s3.partitions && RetirePartition(s, name, now).value == Emptied(s3, name)
      && s3.partitions == s.partitions && s3.revision == s.revision
  {
    NobodySuspended(s, name, now);
    NobodyDeparts(s.agents, s.partitions, name);
    VacatedReshapes(s, name);
    RetirePartitionValue(s, name, now);
  }

  lemma RetirePartitionReshapes(s: Db, name: Id, now: real)
    requires TopologyOk(s) && AgentsOk(s.agents, s.partitions) && Escalated(s.tasks, s.agents, s.escalations)
    requires RetirePartition(s, name, now).Ok?
    requires forall g | g in s.agents && s.agents[g].partition == name
      && s.agents[g].pending.None? :: !Engaged(s.agents[g])
    ensures var s' := RetirePartition(s, name, now).value; Reshaped(s, s') && TopologyOk(s') && s'.tasks == s.tasks
  {
    NobodySuspended(s, name, now);
    NobodyDeparts(s.agents, s.partitions, name);
    VacatedReshapes(s, name);
    RetirePartitionValue(s, name, now);
    EmptiedTopology(Vacated(s, name), name);
    ReshapedTrans(s, Vacated(s, name), Emptied(Vacated(s, name), name));
  }

  lemma RetirePartitionInv(s: Db, name: Id, now: real)
    requires Inv(s) && RetirePartition(s, name, now).Ok?
    ensures Inv(RetirePartition(s, name, now).value) && Reshaped(s, RetirePartition(s, name, now).value)
  {
    InvAgentsOk(s);
    NobodyWorks(s, name, now);
    RetirePartitionReshapes(s, name, now);
    KeptHomes(s.tasks, s.tasks, s.agents, RetirePartition(s, name, now).value.agents);
    ReshapedInv(s, RetirePartition(s, name, now).value);
  }
}
