/** Topology operations reshape agents and partitions without touching authority. */
module TopologyProofs {
  import opened Options
  import opened RowOrder
  import opened Tables
  import opened Topology
  import opened Work
  import opened Invariants

  // ---------------------------------------------------------------- what a reshaping keeps

  /** Assignment and suspension of an agent row are unchanged, and an engaged agent
      is moved only by telling it to. */
  predicate RowKept(r: Agent, r': Agent) {
    && r'.current == r.current && (Engaged(r') <==> Engaged(r)) && (r'.state.Suspended? <==> r.state.Suspended?)
    && (r.current.Some? && r'.pending.None? ==> r.pending.None? && r'.partition == r.partition)
  }

  ghost predicate AgentsKept(agents: map<Id, Agent>, agents': map<Id, Agent>) {
    && (forall g | g in agents :: g in agents' && RowKept(agents[g], agents'[g]))
    && (forall g | g in agents'
        && g !in agents :: agents'[g].current.None? && !Engaged(agents'[g]) && !agents'[g].state.Suspended?)
  }

  /** No agent has two incarnations of one generation. */
  ghost predicate Generations(incs: map<Id, Incarnation>) {
    forall i, j | i in incs && j in incs && incs[i].agent == incs[j].agent
      && incs[i].generation == incs[j].generation :: i == j
  }

  /** Incarnations are never deleted and never change hands or number. */
  ghost predicate IncsKept(incs: map<Id, Incarnation>, incs': map<Id, Incarnation>) {
    && (forall i | i in incs :: i in incs' && incs'[i].agent == incs[i].agent
          && incs'[i].generation == incs[i].generation)
    && (Generations(incs) ==> Generations(incs'))
  }

  /** Only agents and incarnations changed. */
  ghost predicate Moved(s: Db, s': Db) {
    s' == s.(agents := s'.agents, incarnations := s'.incarnations)
    && AgentsKept(s.agents, s'.agents) && IncsKept(s.incarnations, s'.incarnations)
  }

  ghost predicate AgentsOk(agents: map<Id, Agent>, parts: map<Id, Partition>) {
    AgentsPlaced(agents, parts) && forall g | g in agents :: Engaged(agents[g]) <==> agents[g].current.Some?
  }

  lemma MovedTrans(s: Db, s': Db, s'': Db)
    requires Moved(s, s') && Moved(s', s'')
    ensures Moved(s, s'')
  {
    forall g | g in s.agents ensures g in s''.agents && RowKept(s.agents[g], s''.agents[g]) {
      assert RowKept(s.agents[g], s'.agents[g]) && RowKept(s'.agents[g], s''.agents[g]);
    }
    forall g | g in s''.agents && g !in s.agents
      ensures s''.agents[g].current.None? && !Engaged(s''.agents[g]) && !s''.agents[g].state.Suspended? {
      assert g in s'.agents ==> RowKept(s'.agents[g], s''.agents[g]);
    }
  }

  // ---------------------------------------------------------------- merge chains

  lemma ResolveActive(parts: map<Id, Partition>, name: Id, visited: set<Id>)
    ensures Resolve(parts, name, visited).Ok? ==> ActivePartition(parts, Resolve(parts, name, visited).value)
    decreases parts.Keys - visited
  {
    if name !in visited && name in parts && !parts[name].active && parts[name].mergedInto.Some? {
      ResolveActive(parts, parts[name].mergedInto.value, visited + {name});
    }
  }

  lemma ResolveSelf(parts: map<Id, Partition>, name: Id)
    requires ActivePartition(parts, name)
    ensures Canonical(parts, name) == Ok(name)
  {
  }

  /** Every partition seen so far was revised strictly before the current one. */
  lemma {:induction false} ChainNeverCycles(parts: map<Id, Partition>, revision: nat, name: Id, visited: set<Id>)
    requires MergeOrdered(parts, revision)
    requires forall v | v in visited :: v in parts && !parts[v].active
    requires name in parts && !parts[name].active ==>
      forall v | v in visited :: parts[v].revision < parts[name].revision
    ensures Resolve(parts, name, visited) != Err(MergeCycle)
    decreases parts.Keys - visited
  {
    if name !in visited && name in parts && !parts[name].active && parts[name].mergedInto.Some? {
      ChainNeverCycles(parts, revision, parts[name].mergedInto.value, visited + {name});
    }
  }

  /** The cycle error of `_canonical_partition` is unreachable. */
  lemma CanonicalNeverCycles(parts: map<Id, Partition>, revision: nat, name: Id)
    requires MergeOrdered(parts, revision)
    ensures Canonical(parts, name) != Err(MergeCycle)
  {
    ChainNeverCycles(parts, revision, name, {});
  }

  // ---------------------------------------------------------------- one agent

  lemma FenceKept(incs: map<Id, Incarnation>, g: Id, keep: Option<Id>)
    ensures IncsKept(incs, FenceOff(incs, g, keep))
  {
  }

  /** Replacing one agent row by one that is kept and placed. */
  lemma RowMoves(s: Db, g: Id, row: Agent, incs: map<Id, Incarnation>)
    requires g in s.agents && AgentsOk(s.agents, s.partitions)
    requires RowKept(s.agents[g], row) && AgentPlaced(row, s.partitions) && IncsKept(s.incarnations, incs)
    ensures var s' := s.(agents := s.agents[g := row], incarnations := incs);
      Moved(s, s') && AgentsOk(s'.agents, s'.partitions)
  {
  }

  lemma CommitMoves(s: Db, g: Id, name: Id, now: real)
    requires g in s.agents && AgentsOk(s.agents, s.partitions)
    requires CommitCutover(s, g, name, now).Ok?
    requires !Engaged(s.agents[g])
    ensures var s' := CommitCutover(s, g, name, now).value;
      && Moved(s, s') && AgentsOk(s'.agents, s'.partitions)
      && s'.agents == s.agents[g := s'.agents[g]]
      && s'.agents[g].pending.None? && Canonical(s.partitions, name) == Ok(s'.agents[g].partition)
  {
    ResolveActive(s.partitions, name, {});
    var t := Canonical(s.partitions, name).value;
    FenceKept(s.incarnations, g, Some(s.partitions[t].target));
  }

  /** A suspended writer keeps the cutover as desired state. */
  lemma PendMoves(s: Db, g: Id, t: Id)
    requires g in s.agents && AgentsOk(s.agents, s.partitions) && ActivePartition(s.partitions, t)
      && s.agents[g].state.Suspended?
    ensures var s' := s.(agents := s.agents[g := s.agents[g].(pending := Some(t))]);
      Moved(s, s') && AgentsOk(s'.agents, s'.partitions)
  {
    assert AgentPlaced(s.agents[g], s.partitions);
    RowMoves(s, g, s.agents[g].(pending := Some(t)), s.incarnations);
  }

  lemma RequestMoves(s: Db, g: Id, name: Id, now: real)
    requires g in s.agents && AgentsOk(s.agents, s.partitions)
    requires RequestCutover(s, g, name, now).Ok?
    requires !Engaged(s.agents[g])
    ensures var s' := RequestCutover(s, g, name, now).value;
      && Moved(s, s') && AgentsOk(s'.agents, s'.partitions)
      && s'.agents == s.agents[g := s'.agents[g]] && s'.agents[g].state == s.agents[g].state
      && (!s.agents[g].state.Suspended? ==>
        s'.agents[g].pending.None? && Canonical(s.partitions, name) == Ok(s'.agents[g].partition))
  {
    ResolveActive(s.partitions, name, {});
    var t := Canonical(s.partitions, name).value;
    ResolveSelf(s.partitions, t);
    if UnsafeElsewhere(s, g, s.partitions[t].target, now) && s.agents[g].state.Suspended? && s.agents[g].current.None? {
      PendMoves(s, g, t);
    } else {
      CommitMoves(s, g, t, now);
    }
  }

  lemma RetireMoves(s: Db, g: Id)
    requires g in s.agents && AgentsOk(s.agents, s.partitions)
    requires !Engaged(s.agents[g]) && !s.agents[g].state.Suspended?
    ensures var s' := RetireAgent(s, g);
      Moved(s, s') && AgentsOk(s'.agents, s'.partitions) && s'.agents == s.agents[g := RetiredRow(s.agents[g])]
  {
    FenceKept(s.incarnations, g, None);
  }

  lemma BirthMoves(s: Db, id: Id, name: Id, workstream: Option<Id>, tags: Option<set<Id>>, now: real)
    requires AgentsOk(s.agents, s.partitions)
    requires BirthAgent(s, id, name, workstream, tags, now).Ok?
    ensures var s' := BirthAgent(s, id, name, workstream, tags, now).value;
      && Moved(s, s') && AgentsOk(s'.agents, s'.partitions) && s'.partitions == s.partitions
      && id !in s.agents && s'.agents == s.agents[id := s'.agents[id]] && Counted(s'.agents[id], name)
  {
  }

  lemma DrainMoves(s: Db, g: Id)
    requires g in s.agents && AgentsOk(s.agents, s.partitions) && Engaged(s.agents[g])
    ensures var s' := s.(agents := s.agents[g := s.agents[g].(state := AgentState.Draining, retire := true)]);
      Moved(s, s') && AgentsOk(s'.agents, s'.partitions)
  {
    assert AgentPlaced(s.agents[g], s.partitions);
    RowMoves(s, g, s.agents[g].(state := AgentState.Draining, retire := true), s.incarnations);
  }

  /** One row changed and everybody stayed in place. */
  ghost predicate OneMoves(s: Db, s': Db, g: Id) {
    && g in s'.agents && s'.agents == s.agents[g := s'.agents[g]]
    && Moved(s, s') && AgentsOk(s'.agents, s'.partitions)
  }

  lemma ShedIdle(s: Db, g: Id)
    requires g in s.agents && AgentsOk(s.agents, s.partitions) && Idle(s.agents[g])
    requires !s.agents[g].state.Suspended? && !s.agents[g].state.Retired?
    ensures OneMoves(s, Shed(s, g), g)
  {
    assert Shed(s, g) == RetireAgent(s, g);
    RetireMoves(s, g);
  }

  lemma ShedBusy(s: Db, g: Id)
    requires g in s.agents && AgentsOk(s.agents, s.partitions) && !Idle(s.agents[g])
    requires !s.agents[g].state.Suspended? && !s.agents[g].state.Retired?
    ensures OneMoves(s, Shed(s, g), g)
  {
    assert Shed(s, g) == s.(agents := s.agents[g := s.agents[g].(state := AgentState.Draining, retire := true)]);
    DrainMoves(s, g);
  }

  lemma ShedMoves(s: Db, g: Id)
    requires g in s.agents && AgentsOk(s.agents, s.partitions) && !s.agents[g].state.Suspended?
      && !s.agents[g].state.Retired?
    ensures OneMoves(s, Shed(s, g), g)
  {
    if Idle(s.agents[g]) {
      ShedIdle(s, g);
    } else {
      ShedBusy(s, g);
    }
  }

  lemma MoveOneMoves(s: Db, g: Id, name: Id, now: real)
    requires g in s.agents && AgentsOk(s.agents, s.partitions) && ActivePartition(s.partitions, name)
    requires MoveOne(s, g, name, now).Ok? && !s.agents[g].state.Retired?
    ensures var s' := MoveOne(s, g, name, now).value;
      && Moved(s, s') && AgentsOk(s'.agents, s'.partitions) && s'.agents == s.agents[g := s'.agents[g]]
      && !s'.agents[g].state.Retired?
  {
    if !Engaged(s.agents[g]) {
      RequestMoves(s, g, name, now);
    }
  }

  lemma StageMoves(s: Db, g: Id, name: Id)
    requires g in s.agents && AgentsOk(s.agents, s.partitions) && ActivePartition(s.partitions, name)
      && Engaged(s.agents[g])
    ensures var s' := s.(agents := s.agents[g := s.agents[g].(pending := Some(name))]);
      Moved(s, s') && AgentsOk(s'.agents, s'.partitions)
  {
    assert AgentPlaced(s.agents[g], s.partitions);
    RowMoves(s, g, s.agents[g].(pending := Some(name)), s.incarnations);
  }

  /** Stamping availability after the cutover changes nothing else. */
  lemma StampMoves(s: Db, s1: Db, g: Id, row: Agent)
    requires g in s1.agents && Moved(s, s1) && AgentsOk(s1.agents, s1.partitions)
      && row == s1.agents[g].(available := row.available)
    ensures var s' := s1.(agents := s1.agents[g := row]); Moved(s, s') && AgentsOk(s'.agents, s'.partitions)
  {
    assert AgentPlaced(s1.agents[g], s1.partitions);
    RowMoves(s1, g, row, s1.incarnations);
    MovedTrans(s, s1, s1.(agents := s1.agents[g := row]));
  }

  lemma MoveAgentMoves(s: Db, g: Id, name: Id, now: real)
    requires AgentsOk(s.agents, s.partitions)
    requires MoveAgent(s, g, name, now).Ok?
    ensures var s' := MoveAgent(s, g, name, now).value; Moved(s, s') && AgentsOk(s'.agents, s'.partitions)
  {
    if Engaged(s.agents[g]) {
      StageMoves(s, g, name);
    } else {
      RequestMoves(s, g, name, now);
      var s1 := RequestCutover(s, g, name, now).value;
      StampMoves(s, s1, g, MoveAgent(s, g, name, now).value.agents[g]);
    }
  }

  lemma ReviveMoves(s: Db, g: Id, target: Id, now: real)
    requires AgentsOk(s.agents, s.partitions) && Escalated(s.tasks, s.agents, s.escalations)
    requires ReviveAgent(s, g, target, now).Ok?
    ensures var s' := ReviveAgent(s, g, target, now).value; Moved(s, s') && AgentsOk(s'.agents, s'.partitions)
  {
    assert s.agents[g].state.Suspended? ==> HoldOn(s.escalations, g);
    RowMoves(s, g, s.agents[g].(state := AgentState.Ready, available := Some(now)), s.incarnations);
  }

  lemma ReviveSoonMoves(s: Db, g: Id, incs: map<Id, Incarnation>)
    requires g in s.agents && AgentsOk(s.agents, s.partitions) && s.agents[g].state.Ready?
      && IncsKept(s.incarnations, incs)
    ensures var s' := s.(agents := s.agents[g := s.agents[g].(state := AgentState.Reviving, available := None)],
                         incarnations := incs);
      Moved(s, s') && AgentsOk(s'.agents, s'.partitions)
  {
    assert AgentPlaced(s.agents[g], s.partitions);
    RowMoves(s, g, s.agents[g].(state := AgentState.Reviving, available := None), incs);
  }

  lemma LostKept(incs: map<Id, Incarnation>, i: Id)
    requires i in incs
    ensures IncsKept(incs, incs[i := incs[i].(state := IncarnationState.Lost)])
  {
  }

  lemma MarkLostMoves(s: Db, i: Id, now: real)
    requires AgentsOk(s.agents, s.partitions)
    requires MarkIncarnationLost(s, i, now).Ok?
    ensures var s' := MarkIncarnationLost(s, i, now).value; Moved(s, s') && AgentsOk(s'.agents, s'.partitions)
  {
    if !s.incarnations[i].state.Lost? && !s.incarnations[i].state.Terminated? {
      var g := s.incarnations[i].agent;
      LostKept(s.incarnations, i);
      if s.agents[g].state.Ready? {
        ReviveSoonMoves(s, g, s.incarnations[i := s.incarnations[i].(state := IncarnationState.Lost)]);
      }
    }
  }

  // ---------------------------------------------------------------- loops over agents

  lemma {:induction false} MoveEachMoves(s: Db, list: seq<Id>, name: Id, now: real)
    requires AgentsOk(s.agents, s.partitions) && ActivePartition(s.partitions, name)
    requires forall g | g in list :: g in s.agents && !s.agents[g].state.Retired?
    requires MoveEach(s, list, name, now).Ok?
    ensures var s' := MoveEach(s, list, name, now).value; Moved(s, s') && AgentsOk(s'.agents, s'.partitions)
    decreases |list|
  {
    if list != [] {
      MoveOneMoves(s, list[0], name, now);
      var s1 := MoveOne(s, list[0], name, now).value;
      forall g | g in list[1..] ensures g in s1.agents && !s1.agents[g].state.Retired? {
        assert g in list;
      }
      MoveEachMoves(s1, list[1..], name, now);
      MovedTrans(s, s1, MoveEach(s1, list[1..], name, now).value);
    }
  }

  lemma {:induction false} BirthEachMoves(s: Db, name: Id, n: nat, born: nat, draw: nat -> Id, now: real)
    requires AgentsOk(s.agents, s.partitions)
    requires BirthEach(s, name, n, born, draw, now).Ok?
    ensures var s' := BirthEach(s, name, n, born, draw, now).value;
      Moved(s, s') && AgentsOk(s'.agents, s'.partitions)
    decreases n
  {
    if n > 0 {
      BirthMoves(s, draw(born), name, None, None, now);
      var s1 := BirthAgent(s, draw(born), name, None, None, now).value;
      BirthEachMoves(s1, name, n - 1, born + 1, draw, now);
      MovedTrans(s, s1, BirthEach(s1, name, n - 1, born + 1, draw, now).value);
    }
  }

  lemma {:induction false} ShedEachMoves(s: Db, list: seq<Id>)
    requires AgentsOk(s.agents, s.partitions) && Distinct(list)
    requires forall g | g in list :: g in s.agents && !s.agents[g].state.Suspended? && !s.agents[g].state.Retired?
    ensures var s' := ShedEach(s, list); Moved(s, s') && AgentsOk(s'.agents, s'.partitions)
    decreases |list|
  {
    if list != [] {
      ShedMoves(s, list[0]);
      var s1 := Shed(s, list[0]);
      forall g | g in list[1..]
        ensures g in s1.agents && !s1.agents[g].state.Suspended? && !s1.agents[g].state.Retired? {
        var i :| 0 <= i < |list[1..]| && list[1..][i] == g;
        assert list[0] != list[i + 1];
        assert list[i + 1] in list;
      }
      ShedEachMoves(s1, list[1..]);
      MovedTrans(s, s1, ShedEach(s1, list[1..]));
    }
  }

  lemma {:induction false} RetireEachMoves(s: Db, list: seq<Id>)
    requires AgentsOk(s.agents, s.partitions)
    requires forall g | g in list :: g in s.agents && !Engaged(s.agents[g]) && !s.agents[g].state.Suspended?
    ensures var s' := RetireEach(s, list);
      && Moved(s, s') && AgentsOk(s'.agents, s'.partitions) && s'.agents.Keys == s.agents.Keys
      && (forall g | g in s.agents :: s'.agents[g] == if g in list then RetiredRow(s.agents[g]) else s.agents[g])
    decreases |list|
  {
    if list != [] {
      RetireMoves(s, list[0]);
      var s1 := RetireAgent(s, list[0]);
      forall g | g in list[1..] ensures g in s1.agents && !Engaged(s1.agents[g]) && !s1.agents[g].state.Suspended? {
        assert g in list;
      }
      RetireEachMoves(s1, list[1..]);
      MovedTrans(s, s1, RetireEach(s1, list[1..]));
    }
  }
}
