/** What the remaining calls on partitions and agents do, in terms of the rows. */
module PoolEffects {
  import opened Options
  import opened RowOrder
  import opened Tables
  import opened Topology
  import opened Work
  import opened Invariants
  import opened TopologyProofs
  import opened ReshapeProofs
  import opened TopologyOps
  import opened Settlement
  import opened Failures
  import opened PoolChoice

  // ---------------------------------------------------------------- one agent

  lemma ArrivesHome(s: Db, s1: Db, g: Id, name: Id, next: AgentState, now: real)
    requires Goes(s, s1, g, name)
    ensures Goes(s, s1.(agents := s1.agents[g := ArrivedRow(s1.agents[g], next, now)]), g, name)
  {
    var row := ArrivedRow(s1.agents[g], next, now);
    assert s1.agents[g := row] == s.agents[g := row];
  }

  /** A committed move leaves the agent headed for the partition; a busy agent only stages it. */
  lemma MoveAgentGoes(s: Db, g: Id, name: Id, now: real)
    requires MoveAgent(s, g, name, now).Ok?
    ensures var s' := MoveAgent(s, g, name, now).value;
      && Goes(s, s', g, name) && ActivePartition(s.partitions, name)
      && (s.agents[g].state == AgentState.Assigned || s.agents[g].current != None ==>
            s'.agents[g] == s.agents[g].(pending := Some(name)))
  {
    if !s.agents[g].state.Assigned? && s.agents[g].current.None? {
      CutoverGoes(s, g, name, now);
      ArrivesHome(s, RequestCutover(s, g, name, now).value, g, name,
                  if s.agents[g].state.Draining? then AgentState.Ready else s.agents[g].state, now);
    } else {
      StagedGoes(s, g, name);
    }
  }

  ghost predicate Revivable(s: Db, g: Id, target: Id) {
    && g in s.agents && s.agents[g].state != AgentState.Retired && s.agents[g].current == None
    && (forall k | k in s.escalations && s.escalations[k].agent == g
        && s.escalations[k].state == EscalationState.Open ::
          s.escalations[k].cause != WriterQuiescenceUnknown)
    && (forall a | a in s.attempts && s.attempts[a].agent == g :: s.attempts[a].state != AttemptState.Active)
    && s.agents[g].partition in s.partitions && s.partitions[s.agents[g].partition].active
    && s.partitions[s.agents[g].partition].target == target
  }

  /** An idle agent without a hold is revived on its partition's target. */
  lemma ReviveExactly(s: Db, g: Id, target: Id, now: real)
    ensures var r := ReviveAgent(s, g, target, now);
      && (r.Ok? <==> Revivable(s, g, target))
      && (r.Ok? ==> r.value == s.(agents := s.agents[g := s.agents[g].(state := AgentState.Ready,
                                                                       available := Some(now))]))
  {
  }

  /** A live incarnation is LOST and its agent, when it was READY, has to be revived; one that is
      over stays so. */
  predicate MarkedLost(s: Db, s': Db, i: Id) {
    && i in s.incarnations
    && var row := s.incarnations[i];
    if row.state == IncarnationState.Lost || row.state == IncarnationState.Terminated then s' == s
    else && row.agent in s.agents
         && s'.incarnations == s.incarnations[i := row.(state := IncarnationState.Lost)]
         && s'.agents == (if s.agents[row.agent].state == AgentState.Ready
                          then s.agents[row.agent := s.agents[row.agent].(state := AgentState.Reviving,
                                                                          available := None)]
                          else s.agents)
         && s' == s.(incarnations := s'.incarnations, agents := s'.agents)
  }

  lemma MarkLostDone(s: Db, i: Id, now: real)
    requires AgentsEngaged(s.tasks, s.attempts, s.agents) && MarkIncarnationLost(s, i, now).Ok?
    ensures MarkedLost(s, MarkIncarnationLost(s, i, now).value, i)
  {
    var g := s.incarnations[i].agent;
    assert g in s.agents ==> AgentAssigned(s.tasks, s.attempts, s.agents[g], g);
  }

  // ---------------------------------------------------------------- consumers

  /** A READY agent of the partition with the tags, and with the workstream when that is REQUIRED. */
  predicate CouldTake(task: Task, agent: Agent) {
    && agent.state == AgentState.Ready && agent.partition == task.partition
    && (forall tag | tag in task.tags :: tag in agent.tags)
    && (task.continuity == Required ==> agent.workstream == task.workstream)
  }

  ghost predicate HasConsumer(agents: map<Id, Agent>, task: Task) {
    exists g :: g in agents && CouldTake(task, agents[g])
  }

  lemma ConsumerIff(s: Db, t: Id)
    requires t in s.tasks
    ensures HasConsumer(s.agents, s.tasks[t]) <==> Served(s, t)
  {
    if Served(s, t) {
      var g :| g in s.agents && Serves(s.tasks[t], s.agents[g]);
      assert CouldTake(s.tasks[t], s.agents[g]);
    }
    if HasConsumer(s.agents, s.tasks[t]) {
      var g :| g in s.agents && CouldTake(s.tasks[t], s.agents[g]);
      assert Serves(s.tasks[t], s.agents[g]);
    }
  }

  lemma ConsumerStays(agents: map<Id, Agent>, agents': map<Id, Agent>, task: Task)
    requires Grown(agents, agents') && HasConsumer(agents, task)
    ensures HasConsumer(agents', task)
  {
    var g :| g in agents && CouldTake(task, agents[g]);
    assert g in agents' && CouldTake(task, agents'[g]);
  }

  /** Agents are added and nothing else changes. */
  ghost predicate Joined(s: Db, s': Db) {
    s' == s.(agents := s'.agents) && Grown(s.agents, s'.agents)
  }

  lemma BornConsumer(s: Db, t: Id, id: Id, now: real)
    requires t in s.tasks && ActivePartition(s.partitions, s.tasks[t].partition)
    requires var task := s.tasks[t];
      BirthAgent(s, id, task.partition, task.workstream, Some(s.partitions[task.partition].tags + task.tags), now).Ok?
    ensures var task := s.tasks[t];
      var s' := BirthAgent(s, id, task.partition, task.workstream, Some(s.partitions[task.partition].tags + task.tags),
                           now).value;
      Joined(s, s') && HasConsumer(s'.agents, task)
  {
    var task := s.tasks[t];
    var s' := BirthAgent(s, id, task.partition, task.workstream, Some(s.partitions[task.partition].tags + task.tags),
                         now).value;
    assert id in s'.agents && CouldTake(task, s'.agents[id]);
  }

  ghost predicate AllServed(s: Db, s': Db, list: seq<Id>) {
    && Joined(s, s')
    && forall t | t in list && t in s.tasks && ActivePartition(s.partitions, s.tasks[t].partition) ::
         HasConsumer(s'.agents, s.tasks[t])
  }

  lemma ServedStep(s: Db, s1: Db, s': Db, list: seq<Id>)
    requires list != [] && Joined(s, s1) && AllServed(s1, s', list[1..])
    requires list[0] in s.tasks && ActivePartition(s.partitions, s.tasks[list[0]].partition) ==>
      HasConsumer(s1.agents, s.tasks[list[0]])
    ensures AllServed(s, s', list)
  {
    forall t | t in list && t in s.tasks && ActivePartition(s.partitions, s.tasks[t].partition)
      ensures HasConsumer(s'.agents, s.tasks[t]) {
      if t == list[0] {
        ConsumerStays(s1.agents, s'.agents, s.tasks[t]);
      } else {
        assert t in list[1..];
      }
    }
  }

  lemma {:induction false} ServeEachServes(s: Db, list: seq<Id>, born: nat, draw: nat -> Id, now: real)
    requires ServeEach(s, list, born, draw, now).Ok?
    ensures AllServed(s, ServeEach(s, list, born, draw, now).value, list)
    decreases |list|
  {
    if list != [] {
      var t := list[0];
      if !NeedsConsumer(s, t) {
        ServeEachServes(s, list[1..], born, draw, now);
        if t in s.tasks {
          ConsumerIff(s, t);
        }
        ServedStep(s, s, ServeEach(s, list[1..], born, draw, now).value, list);
      } else {
        var task := s.tasks[t];
        BornConsumer(s, t, draw(born), now);
        var s1 := BirthAgent(s, draw(born), task.partition, task.workstream,
                             Some(s.partitions[task.partition].tags + task.tags), now).value;
        ServeEachServes(s1, list[1..], born + 1, draw, now);
        ServedStep(s, s1, ServeEach(s1, list[1..], born + 1, draw, now).value, list);
      }
    }
  }

  /** Afterwards every QUEUED task of an ACTIVE batch on an active partition has a READY agent
      that could take it; agents that existed keep their rows. */
  lemma EnsureServes(s: Db, draw: nat -> Id, now: real)
    requires EnsureTaskConsumers(s, draw, now).Ok?
    ensures var s' := EnsureTaskConsumers(s, draw, now).value;
      && Joined(s, s')
      && forall t | t in s.tasks && s.tasks[t].state == TaskState.Queued && s.tasks[t].batch in s.batches
           && s.batches[s.tasks[t].batch] == BatchState.Active && s.tasks[t].partition in s.partitions
           && s.partitions[s.tasks[t].partition].active :: HasConsumer(s'.agents, s.tasks[t])
  {
    ServeEachServes(s, Listing(QueuedRows(s)), 0, draw, now);
    forall t | t in s.tasks && s.tasks[t].state == TaskState.Queued && s.tasks[t].batch in s.batches
      && s.batches[s.tasks[t].batch] == BatchState.Active
      ensures t in Listing(QueuedRows(s)) {
      assert t in QueuedRows(s);
    }
  }

  // ---------------------------------------------------------------- merge

  /** Unfinished tasks of the source are scheduled on the target; the others stay. */
  ghost predicate TasksFollow(tasks: map<Id, Task>, tasks': map<Id, Task>, source: Id, target: Id) {
    && tasks'.Keys == tasks.Keys
    && forall t | t in tasks :: tasks'[t] ==
         if tasks[t].partition == source && tasks[t].state != TaskState.Completed
            && tasks[t].state != TaskState.Cancelled
         then tasks[t].(partition := target) else tasks[t]
  }

  /** Agents headed for the source are headed for the target; the others keep their heading. */
  ghost predicate AgentsFollow(agents: map<Id, Agent>, agents': map<Id, Agent>, source: Id, target: Id) {
    && agents'.Keys == agents.Keys
    && forall g | g in agents && agents[g].state != AgentState.Retired ::
         Home(agents'[g]) == if Home(agents[g]) == source then target else Home(agents[g])
  }

  lemma MembersFollow(agents: map<Id, Agent>, agents1: map<Id, Agent>, list: seq<Id>, source: Id, target: Id)
    requires source != target && agents1.Keys == agents.Keys
    requires forall g | g in agents && Immediate(agents[g], source) :: agents[g].pending.None?
    requires var before := RebasePending(agents, source, target);
      && (forall g | g in agents && g !in list :: agents1[g] == before[g])
      && (forall g | g in list :: g in agents1 && agents1[g].partition == target && agents1[g].pending.None?)
      && (forall g :: g in list <==> g in before && Immediate(before[g], source))
    requires forall g | g in agents && agents[g].partition == source && agents[g].state != AgentState.Retired
      && !Immediate(agents[g], source) ::
      agents[g].state.Assigned? || agents[g].state.Draining? || agents[g].state.Suspended?
    ensures AgentsFollow(agents, StageMerged(agents1, source, target), source, target)
  {
  }

  lemma ImmediateIdle(s: Db, source: Id)
    requires AgentsPlaced(s.agents, s.partitions) && AgentsEngaged(s.tasks, s.attempts, s.agents)
    ensures forall g | g in s.agents && Immediate(s.agents[g], source) :: s.agents[g].pending.None?
  {
    forall g | g in s.agents && Immediate(s.agents[g], source) ensures s.agents[g].pending.None? {
      assert AgentPlaced(s.agents[g], s.partitions);
      assert AgentAssigned(s.tasks, s.attempts, s.agents[g], g);
    }
  }

  /** What the loop over the idle members leaves. */
  ghost predicate Gathered(s0: Db, s1: Db, list: seq<Id>, target: Id) {
    && s1.tasks == s0.tasks && s1.agents.Keys == s0.agents.Keys
    && (forall g | g in s0.agents && g !in list :: s1.agents[g] == s0.agents[g])
    && (forall g | g in list :: g in s1.agents && s1.agents[g].partition == target && s1.agents[g].pending.None?)
  }

  lemma LoopGathers(s0: Db, source: Id, target: Id, now: real)
    requires TopologyOk(s0) && AgentsOk(s0.agents, s0.partitions) && source != target
      && ActivePartition(s0.partitions, target)
    requires MergeEach(s0, ImmediateList(s0.agents, source), source, target, now).Ok?
    ensures Gathered(s0, MergeEach(s0, ImmediateList(s0.agents, source), source, target, now).value,
                     ImmediateList(s0.agents, source), target)
  {
    MergeMembersReshape(s0, source, target, now);
  }

  lemma MergeOpens(s: Db, source: Id, target: Id, now: real)
    requires MergePartitions(s, source, target, now).Ok?
    ensures source != target && ActivePartition(s.partitions, target)
    ensures var s0 := Rebased(s, source, target);
      MergeEach(s0, ImmediateList(s0.agents, source), source, target, now).Ok?
  {
  }

  lemma MembersGathered(s: Db, s0: Db, source: Id, target: Id, now: real)
    requires TopologyOk(s) && AgentsOk(s.agents, s.partitions) && source != target
      && ActivePartition(s.partitions, target) && s0 == Rebased(s, source, target)
    requires MergeEach(s0, ImmediateList(s0.agents, source), source, target, now).Ok?
    ensures Gathered(s0, MergeEach(s0, ImmediateList(s0.agents, source), source, target, now).value,
                     ImmediateList(s0.agents, source), target)
  {
    RebaseReshapes(s, source, target);
    LoopGathers(s0, source, target, now);
  }

  lemma StagedFollows(s: Db, source: Id, target: Id, now: real)
    requires MergePartitions(s, source, target, now).Ok?
    requires forall g | g in s.agents && Immediate(s.agents[g], source) :: s.agents[g].pending.None?
    requires var s0 := Rebased(s, source, target);
      var list := ImmediateList(s0.agents, source);
      Gathered(s0, MergeEach(s0, list, source, target, now).value, list, target)
    ensures var s2 := Staged(s, source, target, now);
      TasksFollow(s.tasks, s2.tasks, source, target) && AgentsFollow(s.agents, s2.agents, source, target)
  {
    var s0 := Rebased(s, source, target);
    var list := ImmediateList(s0.agents, source);
    MembersFollow(s.agents, MergeEach(s0, list, source, target, now).value.agents, list, source, target);
  }

  lemma MergeFollows(s: Db, source: Id, target: Id, now: real)
    requires TopologyOk(s) && AgentsOk(s.agents, s.partitions) && MergePartitions(s, source, target, now).Ok?
    requires forall g | g in s.agents && Immediate(s.agents[g], source) :: s.agents[g].pending.None?
    ensures var s' := MergePartitions(s, source, target, now).value;
      TasksFollow(s.tasks, s'.tasks, source, target) && AgentsFollow(s.agents, s'.agents, source, target)
  {
    MergeValue(s, source, target, now);
    MergeOpens(s, source, target, now);
    MembersGathered(s, Rebased(s, source, target), source, target, now);
    StagedFollows(s, source, target, now);
  }

  /** A committed merge hands every unfinished task and every agent of the source to the target. */
  lemma MergeHandsOver(s: Db, source: Id, target: Id, now: real)
    requires Inv(s) && MergePartitions(s, source, target, now).Ok?
    ensures var s' := MergePartitions(s, source, target, now).value;
      TasksFollow(s.tasks, s'.tasks, source, target) && AgentsFollow(s.agents, s'.agents, source, target)
  {
    InvAgentsOk(s);
    ImmediateIdle(s, source);
    MergeFollows(s, source, target, now);
  }

  // ---------------------------------------------------------------- retirement of a partition

  /** No unfinished task is scheduled there, nobody is on the way there, and no member is held. */
  ghost predicate Retirable(s: Db, name: Id) {
    && name in s.partitions && s.partitions[name].active
    && (forall t | t in s.tasks && s.tasks[t].partition == name ::
          s.tasks[t].state == TaskState.Completed || s.tasks[t].state == TaskState.Cancelled)
    && (forall g | g in s.agents && s.agents[g].pending == Some(name) :: s.agents[g].state == AgentState.Retired)
    && (forall k | k in s.escalations && s.escalations[k].state == EscalationState.Open
          && s.escalations[k].cause == WriterQuiescenceUnknown && s.escalations[k].agent in s.agents ::
          var agent := s.agents[s.escalations[k].agent];
          agent.partition == name ==> agent.state == AgentState.Retired)
  }

  lemma RetirableIff(s: Db, name: Id)
    ensures Retirable(s, name) <==>
      ActivePartition(s.partitions, name) && !Unfinished(s, name) && !Inbound(s, name) && !Obliged(s, name)
  {
  }

  lemma Unheld(s: Db, name: Id)
    requires Escalated(s.tasks, s.agents, s.escalations) && !Obliged(s, name)
    ensures forall g | g in s.agents && s.agents[g].partition == name :: !s.agents[g].state.Suspended?
  {
    forall g | g in s.agents && s.agents[g].partition == name ensures !s.agents[g].state.Suspended? {
      assert s.agents[g].state.Suspended? ==> HoldOn(s.escalations, g);
    }
  }

  /** Every member that is not on its way out is RETIRED; nobody else is touched. */
  ghost predicate MembersRetired(agents: map<Id, Agent>, agents': map<Id, Agent>, name: Id) {
    && agents'.Keys == agents.Keys
    && forall g | g in agents :: agents'[g] ==
         if agents[g].partition == name && agents[g].pending == None && agents[g].state != AgentState.Retired
         then agents[g].(state := AgentState.Retired, current := None, retire := false, available := None)
         else agents[g]
  }

  lemma RowsRetired(agents: map<Id, Agent>, agents2: map<Id, Agent>, name: Id)
    requires agents2.Keys == agents.Keys
    requires forall g | g in agents && agents[g].partition == name && agents[g].pending.None? :: !Engaged(agents[g])
    requires forall g | g in agents :: agents2[g] == if IdleRetirement(agents[g], name) then RetiredRow(agents[g])
      else agents[g]
    ensures MembersRetired(agents, DrainAssigned(agents2, name), name)
  {
  }

  lemma VacatedRetires(s: Db, name: Id)
    requires AgentsOk(s.agents, s.partitions)
    requires forall g | g in s.agents && s.agents[g].partition == name :: !s.agents[g].state.Suspended?
    requires forall g | g in s.agents && s.agents[g].partition == name
      && s.agents[g].pending.None? :: !Engaged(s.agents[g])
    ensures MembersRetired(s.agents, Vacated(s, name).agents, name)
  {
    RetireMembers(s, name);
    RowsRetired(s.agents, RetireEach(s, RetiringList(s.agents, name)).agents, name);
  }

  lemma RetireOk(s: Db, name: Id, now: real)
    requires ActivePartition(s.partitions, name) && !Unfinished(s, name) && !Inbound(s, name) && !Obliged(s, name)
    requires DepartingList(s.agents, name) == [] && Vacated(s, name).partitions == s.partitions
    ensures RetirePartition(s, name, now) == Ok(Emptied(Vacated(s, name), name))
  {
  }

  /** The row is closed and empty. */
  ghost predicate PartitionRetired(s: Db, s': Db, name: Id) {
    && name in s.partitions && MembersRetired(s.agents, s'.agents, name) && s'.revision == s.revision + 1
    && s'.partitions == s.partitions[name := s.partitions[name].(active := false, desired := 0,
                                                                 revision := s.revision + 1)]
  }

  lemma EmptiedRetires(s: Db, s3: Db, name: Id)
    requires name in s.partitions && s3.partitions == s.partitions && s3.revision == s.revision
    requires MembersRetired(s.agents, s3.agents, name)
    ensures PartitionRetired(s, Emptied(s3, name), name)
  {
  }

  lemma Vacates(s: Db, name: Id)
    requires TopologyOk(s) && AgentsOk(s.agents, s.partitions) && Escalated(s.tasks, s.agents, s.escalations)
    requires !Inbound(s, name) && !Obliged(s, name)
    requires forall g | g in s.agents && s.agents[g].partition == name
      && s.agents[g].pending.None? :: !Engaged(s.agents[g])
    ensures var s3 := Vacated(s, name);
      && s3.partitions == s.partitions && s3.revision == s.revision && MembersRetired(s.agents, s3.agents, name)
      && DepartingList(s.agents, name) == []
  {
    Unheld(s, name);
    NobodyDeparts(s.agents, s.partitions, name);
    VacatedReshapes(s, name);
    VacatedRetires(s, name);
  }

  lemma RetirePlaced(s: Db, name: Id, now: real)
    requires TopologyOk(s) && AgentsOk(s.agents, s.partitions) && Escalated(s.tasks, s.agents, s.escalations)
    requires ActivePartition(s.partitions, name) && !Unfinished(s, name) && !Inbound(s, name) && !Obliged(s, name)
    requires forall g | g in s.agents && s.agents[g].partition == name
      && s.agents[g].pending.None? :: !Engaged(s.agents[g])
    ensures RetirePartition(s, name, now).Ok? && PartitionRetired(s, RetirePartition(s, name, now).value, name)
  {
    Vacates(s, name);
    RetireOk(s, name, now);
    EmptiedRetires(s, Vacated(s, name), name);
  }

  /** Nobody works on a partition without unfinished tasks. */
  lemma NobodyBusy(s: Db, name: Id)
    requires Fenced(s.tasks, s.attempts, s.leases) && AgentsEngaged(s.tasks, s.attempts, s.agents)
      && Homes(s.tasks, s.agents) && !Unfinished(s, name)
    ensures forall g | g in s.agents && s.agents[g].partition == name
      && s.agents[g].pending.None? :: !Engaged(s.agents[g])
  {
    forall g | g in s.agents && s.agents[g].partition == name && s.agents[g].pending.None?
      ensures !Engaged(s.agents[g]) {
      assert AgentAssigned(s.tasks, s.attempts, s.agents[g], g);
      assert forall t | t in s.tasks :: TaskFenced(s.tasks[t], s.attempts, t);
    }
  }

  /** When a partition can be retired, and what becomes of it and its members. */
  lemma RetireExactly(s: Db, name: Id, now: real)
    requires Inv(s)
    ensures var r := RetirePartition(s, name, now);
      (r.Ok? <==> Retirable(s, name)) && (r.Ok? ==> PartitionRetired(s, r.value, name))
  {
    RetirableIff(s, name);
    if Retirable(s, name) {
      InvAgentsOk(s);
      NobodyBusy(s, name);
      RetirePlaced(s, name, now);
    }
  }

  // ---------------------------------------------------------------- rows that are added or resized

  /** A partition is declared once; declaring it again must say the same. */
  lemma UpsertExactly(s: Db, spec: PartitionSpec)
    ensures var r := UpsertPartition(s, spec);
      && (r.Ok? <==> spec.desired >= 0 && (spec.name in s.partitions ==>
            var p := s.partitions[spec.name];
            p.active && p == p.(desired := spec.desired, retention := spec.retention, target := spec.target,
                                profile := spec.profile, tags := spec.tags)))
      && (r.Ok? ==> r.value == if spec.name in s.partitions then s
                               else s.(revision := s.revision + 1, partitions := s.partitions[spec.name :=
                                 Partition(spec.desired, spec.retention, spec.target, spec.profile, spec.tags, true,
                                           None, s.revision + 1)]))
  {
  }

  /** A READY agent, available from now, with the given tags or the partition's. */
  lemma BirthExactly(s: Db, id: Id, name: Id, workstream: Option<Id>, tags: Option<set<Id>>, now: real)
    ensures var r := BirthAgent(s, id, name, workstream, tags, now);
      && (r.Ok? <==> name in s.partitions && s.partitions[name].active && id !in s.agents)
      && (r.Ok? ==> r.value == s.(agents := s.agents[id :=
           Agent(name, AgentState.Ready, workstream,
                 match tags case Some(own) => own case None => s.partitions[name].tags, None, None, false, 0, Some(now),
                 now)]))
  {
  }
}
