/** Who leaves an overfull partition and who moves with capacity, in terms of the rows. */
module PoolChoice {
  import opened Options
  import opened RowOrder
  import opened Tables
  import opened Topology
  import opened Work
  import opened Invariants
  import opened TopologyOps
  import opened Settlement
  import opened Failures

  // ---------------------------------------------------------------- members

  /** Headed for the partition, and neither SUSPENDED nor RETIRED nor told to retire. */
  predicate MemberOf(agent: Agent, name: Id) {
    && Home(agent) == name && agent.state != AgentState.Suspended && agent.state != AgentState.Retired
    && !(agent.state == AgentState.Draining && agent.retire)
  }

  lemma MembersAre(agents: map<Id, Agent>, name: Id, g: Id)
    ensures g in Members(agents, name) <==> g in agents && MemberOf(agents[g], name)
  {
  }

  /** ASSIGNED agents leave last and READY ones first, then younger ones, then by id. */
  predicate LeavesBefore(p: Agent, g: Id, q: Agent, h: Id) {
    var busy, rival := p.state == AgentState.Assigned, q.state == AgentState.Assigned;
    var ready, spare := p.state == AgentState.Ready, q.state == AgentState.Ready;
    || (!busy && rival)
    || (busy == rival && ready && !spare)
    || (busy == rival && ready == spare && p.created > q.created)
    || (busy == rival && ready == spare && p.created == q.created && g < h)
  }

  /** An idle agent is RETIRED at once, any other drains first. */
  predicate Left(agent: Agent, agent': Agent) {
    if (agent.state == AgentState.Ready || agent.state == AgentState.Initializing
        || agent.state == AgentState.Reviving) && agent.current == None
    then agent' == agent.(state := AgentState.Retired, current := None, pending := None, retire := false,
                          available := None)
    else agent' == agent.(state := AgentState.Draining, retire := true)
  }

  lemma LeftIsNoMember(agent: Agent, agent': Agent, name: Id, other: Id)
    requires MemberOf(agent, name) && Left(agent, agent')
    ensures agent' != agent && !MemberOf(agent', other)
  {
  }

  lemma SurplusFirst(agents: map<Id, Agent>, name: Id, n: nat, g: Id, h: Id)
    requires n <= |Members(agents, name)|
    requires g in Surplus(agents, name, n) && h in Members(agents, name) && h !in Surplus(agents, name, n)
    ensures g in agents && h in agents && LeavesBefore(agents[g], g, agents[h], h)
  {
    PrefixAhead(ExcessRows(agents, Members(agents, name)), n, g, h);
  }

  lemma {:induction false} ShedEachLeaves(s: Db, list: seq<Id>)
    requires Distinct(list) && forall g | g in list :: g in s.agents
    ensures var s' := ShedEach(s, list);
      && s'.agents.Keys == s.agents.Keys
      && (forall g | g in list :: Left(s.agents[g], s'.agents[g]))
      && (forall g | g in s.agents && g !in list :: s'.agents[g] == s.agents[g])
    decreases |list|
  {
    if list != [] {
      assert list[0] in list;
      var s1 := Shed(s, list[0]);
      forall g | g in list[1..] ensures g in list && g != list[0] {
        var i :| 0 <= i < |list[1..]| && list[1..][i] == g;
        assert list[i + 1] == g;
      }
      ShedEachLeaves(s1, list[1..]);
    }
  }

  // ---------------------------------------------------------------- one partition

  /** Members stay or leave in order; everybody else stays. */
  ghost predicate Sheds(agents: map<Id, Agent>, agents': map<Id, Agent>, name: Id) {
    && (forall g | g in agents && MemberOf(agents[g], name) ::
          g in agents' && (agents'[g] == agents[g] || Left(agents[g], agents'[g])))
    && (forall g, h | g in agents && h in agents && MemberOf(agents[g], name) && MemberOf(agents[h], name)
          && g in agents' && h in agents' && agents'[g] != agents[g] && agents'[h] == agents[h] ::
          LeavesBefore(agents[g], g, agents[h], h))
  }

  ghost predicate OutsidersStay(agents: map<Id, Agent>, agents': map<Id, Agent>, name: Id) {
    forall g | g in agents && !MemberOf(agents[g], name) :: g in agents' && agents'[g] == agents[g]
  }

  lemma {:induction false} BirthEachGrows(s: Db, name: Id, n: nat, born: nat, draw: nat -> Id, now: real)
    requires BirthEach(s, name, n, born, draw, now).Ok?
    ensures Grown(s.agents, BirthEach(s, name, n, born, draw, now).value.agents)
    decreases n
  {
    if n > 0 {
      BirthEachGrows(BirthAgent(s, draw(born), name, None, None, now).value, name, n - 1, born + 1, draw, now);
    }
  }

  lemma ListSheds(agents: map<Id, Agent>, agents': map<Id, Agent>, name: Id, list: seq<Id>)
    requires agents'.Keys == agents.Keys
    requires forall g | g in list :: g in agents && MemberOf(agents[g], name) && Left(agents[g], agents'[g])
    requires forall g | g in agents && g !in list :: agents'[g] == agents[g]
    requires forall g, h | g in list && h in agents && MemberOf(agents[h], name) && h !in list ::
      g in agents && LeavesBefore(agents[g], g, agents[h], h)
    ensures Sheds(agents, agents', name) && OutsidersStay(agents, agents', name)
  {
    forall g | g in list ensures agents'[g] != agents[g] {
      LeftIsNoMember(agents[g], agents'[g], name, name);
    }
  }

  lemma SurplusSheds(s: Db, name: Id, n: nat)
    requires n <= |Members(s.agents, name)|
    ensures var s' := ShedEach(s, Surplus(s.agents, name, n));
      Sheds(s.agents, s'.agents, name) && OutsidersStay(s.agents, s'.agents, name)
  {
    var list := Surplus(s.agents, name, n);
    SurplusMembers(s.agents, name, n);
    ShedEachLeaves(s, list);
    forall g, h | g in list && h in s.agents && MemberOf(s.agents[h], name) && h !in list
      ensures g in s.agents && LeavesBefore(s.agents[g], g, s.agents[h], h) {
      MembersAre(s.agents, name, h);
      SurplusFirst(s.agents, name, n, g, h);
    }
    ListSheds(s.agents, ShedEach(s, list).agents, name, list);
  }

  lemma PartitionSheds(s: Db, name: Id, born: nat, draw: nat -> Id, now: real)
    requires name in s.partitions && ReconcilePartition(s, name, born, draw, now).Ok?
    ensures var s' := ReconcilePartition(s, name, born, draw, now).value;
      Sheds(s.agents, s'.agents, name) && OutsidersStay(s.agents, s'.agents, name)
  {
    if ExcessIn(s, name) == 0 {
      BirthEachGrows(s, name, BornIn(s, name), born, draw, now);
    } else {
      SurplusSheds(s, name, ExcessIn(s, name));
    }
  }

  // ---------------------------------------------------------------- the whole pool

  ghost predicate AllShed(agents: map<Id, Agent>, agents': map<Id, Agent>, names: seq<Id>) {
    && (forall name | name in names :: Sheds(agents, agents', name))
    && (forall g | g in agents && (forall name | name in names :: !MemberOf(agents[g], name)) ::
          g in agents' && agents'[g] == agents[g])
  }

  /** A member of the first partition is not touched by the later ones. */
  lemma FirstSettled(agents: map<Id, Agent>, agents1: map<Id, Agent>, agents': map<Id, Agent>, names: seq<Id>, g: Id)
    requires names != [] && Distinct(names) && Sheds(agents, agents1, names[0]) && AllShed(agents1, agents', names[1..])
    requires g in agents && MemberOf(agents[g], names[0])
    ensures g in agents1 && g in agents' && agents'[g] == agents1[g]
  {
    forall name | name in names[1..] ensures !MemberOf(agents1[g], name) {
      var i :| 0 <= i < |names[1..]| && names[1..][i] == name;
      assert names[0] != names[i + 1];
      if agents1[g] != agents[g] {
        LeftIsNoMember(agents[g], agents1[g], names[0], name);
      }
    }
  }

  lemma ShedsLater(agents: map<Id, Agent>, agents1: map<Id, Agent>, agents': map<Id, Agent>, first: Id, name: Id)
    requires OutsidersStay(agents, agents1, first) && Sheds(agents1, agents', name) && name != first
    ensures Sheds(agents, agents', name)
  {
    forall g | g in agents && MemberOf(agents[g], name) ensures g in agents1 && agents1[g] == agents[g] {
    }
  }

  lemma AllShedStep(agents: map<Id, Agent>, agents1: map<Id, Agent>, agents': map<Id, Agent>, names: seq<Id>)
    requires names != [] && Distinct(names)
    requires Sheds(agents, agents1, names[0]) && OutsidersStay(agents, agents1, names[0])
    requires AllShed(agents1, agents', names[1..])
    ensures AllShed(agents, agents', names)
  {
    forall g | g in agents && MemberOf(agents[g], names[0]) ensures g in agents1 && g in agents'
      && agents'[g] == agents1[g] {
      FirstSettled(agents, agents1, agents', names, g);
    }
    assert Sheds(agents, agents', names[0]);
    forall name | name in names ensures Sheds(agents, agents', name) {
      if name != names[0] {
        assert name in names[1..];
        ShedsLater(agents, agents1, agents', names[0], name);
      }
    }
    forall g | g in agents && (forall name | name in names :: !MemberOf(agents[g], name))
      ensures g in agents' && agents'[g] == agents[g] {
      assert names[0] in names && !MemberOf(agents[g], names[0]);
      forall name | name in names[1..] ensures !MemberOf(agents1[g], name) {
        assert name in names;
      }
    }
  }

  lemma {:induction false} ReconcileEachSheds(s: Db, names: seq<Id>, born: nat, draw: nat -> Id, now: real)
    requires Distinct(names) && ReconcileEach(s, names, born, draw, now).Ok?
    ensures AllShed(s.agents, ReconcileEach(s, names, born, draw, now).value.agents, names)
    decreases |names|
  {
    if names != [] {
      PartitionSheds(s, names[0], born, draw, now);
      var s1 := ReconcilePartition(s, names[0], born, draw, now).value;
      assert Distinct(names[1..]);
      ReconcileEachSheds(s1, names[1..], born + BornIn(s, names[0]), draw, now);
      AllShedStep(s.agents, s1.agents, ReconcileEach(s, names, born, draw, now).value.agents, names);
    }
  }

  /** In every active partition reconciliation lets members go in order: no ASSIGNED one while
      another stays that is not, no other while a READY one stays. */
  lemma ReconcileSheds(s: Db, draw: nat -> Id, now: real)
    requires Inv(s) && ReconcilePool(s, draw, now).Ok?
    ensures var s' := ReconcilePool(s, draw, now).value;
      && (forall name | name in s.partitions && s.partitions[name].active :: Sheds(s.agents, s'.agents, name))
      && (forall g | g in s.agents && (forall name | name in s.partitions && s.partitions[name].active ::
                                         !MemberOf(s.agents[g], name)) ::
            g in s'.agents && s'.agents[g] == s.agents[g])
  {
    NoIdleDrains(s);
    var names := ById(ActiveNames(s.partitions));
    ListingDistinct(ByIdRows(ActiveNames(s.partitions)));
    ReconcileEachSheds(s, names, 0, draw, now);
    forall name ensures name in names <==> name in s.partitions && s.partitions[name].active {
    }
  }

  // ---------------------------------------------------------------- moving capacity

  /** May go along: headed for the source, not RETIRED and not told to retire. */
  predicate MayMove(agent: Agent, source: Id) {
    Home(agent) == source && agent.state != AgentState.Retired && !agent.retire
  }

  /** Idle READY agents first, then longest available, then by id. */
  predicate MovesBefore(p: Agent, g: Id, q: Agent, h: Id) {
    var idle := p.state == AgentState.Ready && p.current == None;
    var rival := q.state == AgentState.Ready && q.current == None;
    var since := match p.available case Some(at) => at case None => p.created;
    var other := match q.available case Some(at) => at case None => q.created;
    || (idle && !rival)
    || (idle == rival && since < other)
    || (idle == rival && since == other && g < h)
  }

  /** The agent is now headed for `name`, and no other row of an agent changed. */
  ghost predicate Goes(s: Db, s': Db, g: Id, name: Id) {
    && g in s.agents && g in s'.agents && s'.agents == s.agents[g := s'.agents[g]] && Home(s'.agents[g]) == name
    && s'.partitions == s.partitions
  }

  lemma ArrivedGoes(s: Db, s1: Db, g: Id, name: Id, now: real)
    requires Goes(s, s1, g, name)
    ensures Goes(s, s1.(agents := s1.agents[g := s1.agents[g].(state := AgentState.Ready, available := Some(now))]),
                 g, name)
  {
    var row := s1.agents[g].(state := AgentState.Ready, available := Some(now));
    assert s1.agents[g := row] == s.agents[g := row];
  }

  lemma StagedGoes(s: Db, g: Id, name: Id)
    requires g in s.agents
    ensures Goes(s, s.(agents := s.agents[g := s.agents[g].(pending := Some(name))]), g, name)
  {
  }

  lemma CommittedGoes(s: Db, g: Id, name: Id)
    requires g in s.agents && name in s.partitions
    ensures Goes(s, CutoverRows(s, g, name), g, name)
  {
  }

  lemma CutoverIs(s: Db, g: Id, name: Id, now: real)
    requires g in s.agents && ActivePartition(s.partitions, name) && RequestCutover(s, g, name, now).Ok?
    ensures var s' := RequestCutover(s, g, name, now).value;
      s' == CutoverRows(s, g, name) || s' == s.(agents := s.agents[g := s.agents[g].(pending := Some(name))])
  {
    assert Canonical(s.partitions, name) == Ok(name);
  }

  lemma CutoverGoes(s: Db, g: Id, name: Id, now: real)
    requires g in s.agents && ActivePartition(s.partitions, name) && RequestCutover(s, g, name, now).Ok?
    ensures Goes(s, RequestCutover(s, g, name, now).value, g, name)
  {
    CutoverIs(s, g, name, now);
    StagedGoes(s, g, name);
    CommittedGoes(s, g, name);
  }

  lemma IdleGoes(s: Db, g: Id, name: Id, now: real)
    requires g in s.agents && ActivePartition(s.partitions, name) && MoveOne(s, g, name, now).Ok?
    requires s.agents[g].current.None? && !s.agents[g].state.Assigned?
    ensures Goes(s, MoveOne(s, g, name, now).value, g, name)
  {
    CutoverGoes(s, g, name, now);
    if s.agents[g].state.Draining? {
      ArrivedGoes(s, RequestCutover(s, g, name, now).value, g, name, now);
    }
  }

  lemma BusyGoes(s: Db, g: Id, name: Id)
    requires g in s.agents
    ensures Goes(s, s.(agents := s.agents[g := s.agents[g].(state := AgentState.Draining, pending := Some(name),
                                                            available := None)]), g, name)
  {
  }

  lemma MoveOneGoes(s: Db, g: Id, name: Id, now: real)
    requires g in s.agents && ActivePartition(s.partitions, name) && MoveOne(s, g, name, now).Ok?
    ensures Goes(s, MoveOne(s, g, name, now).value, g, name)
  {
    if s.agents[g].current.None? && !s.agents[g].state.Assigned? {
      IdleGoes(s, g, name, now);
    } else {
      BusyGoes(s, g, name);
    }
  }

  lemma {:induction false} MoveEachGoes(s: Db, list: seq<Id>, name: Id, now: real)
    requires Distinct(list) && ActivePartition(s.partitions, name) && MoveEach(s, list, name, now).Ok?
    ensures var agents' := MoveEach(s, list, name, now).value.agents;
      && agents'.Keys == s.agents.Keys
      && (forall g | g in list :: g in agents' && Home(agents'[g]) == name)
      && (forall g | g in s.agents && g !in list :: agents'[g] == s.agents[g])
    decreases |list|
  {
    if list != [] {
      MoveOneGoes(s, list[0], name, now);
      var s1 := MoveOne(s, list[0], name, now).value;
      assert Distinct(list[1..]);
      MoveEachGoes(s1, list[1..], name, now);
      forall g | g in list[1..] ensures g in list && g != list[0] {
        var i :| 0 <= i < |list[1..]| && list[1..][i] == g;
        assert list[i + 1] == g;
      }
    }
  }

  ghost function Movers(agents: map<Id, Agent>, source: Id): set<Id> {
    set g | g in agents && MayMove(agents[g], source)
  }

  /** `gone` moved, and everybody who stayed is behind everybody who moved. */
  ghost predicate MovesOut(agents: map<Id, Agent>, agents': map<Id, Agent>, source: Id, target: Id, gone: set<Id>) {
    && gone <= Movers(agents, source) && agents'.Keys == agents.Keys
    && (forall g | g in gone :: Home(agents'[g]) == target)
    && (forall g | g in agents && g !in gone :: agents'[g] == agents[g])
    && (forall g, h | g in gone && h in Movers(agents, source) - gone :: MovesBefore(agents[g], g, agents[h], h))
  }

  lemma PrefixFirst(agents: map<Id, Agent>, source: Id, n: nat, g: Id, h: Id)
    requires n <= |Listing(MoveRows(agents, source))|
    requires g in Listing(MoveRows(agents, source))[..n] && h in Movers(agents, source)
      && h !in Listing(MoveRows(agents, source))[..n]
    ensures g in agents && MovesBefore(agents[g], g, agents[h], h)
  {
    PrefixAhead(MoveRows(agents, source), n, g, h);
  }

  function Elements(list: seq<Id>): set<Id> {
    set g | g in list
  }

  lemma {:induction false} DistinctCount(list: seq<Id>)
    requires Distinct(list)
    ensures |Elements(list)| == |list|
  {
    if list != [] {
      var n := |list| - 1;
      DistinctCount(list[..n]);
      assert list == list[..n] + [list[n]];
      assert Elements(list) == Elements(list[..n]) + {list[n]};
    }
  }

  lemma ChosenMove(s: Db, s': Db, source: Id, target: Id, n: nat, gone: set<Id>)
    requires n <= |Listing(MoveRows(s.agents, source))| && s'.agents.Keys == s.agents.Keys
    requires forall g :: g in gone <==> g in Listing(MoveRows(s.agents, source))[..n]
    requires forall g | g in gone :: g in s'.agents && Home(s'.agents[g]) == target
    requires forall g | g in s.agents && g !in gone :: s'.agents[g] == s.agents[g]
    ensures MovesOut(s.agents, s'.agents, source, target, gone)
  {
    var list := Listing(MoveRows(s.agents, source));
    forall g | g in gone ensures g in Movers(s.agents, source) {
      assert g in list && g in MoveRows(s.agents, source);
    }
    forall g, h | g in gone && h in Movers(s.agents, source) - gone
      ensures MovesBefore(s.agents[g], g, s.agents[h], h) {
      PrefixFirst(s.agents, source, n, g, h);
    }
  }

  lemma AllListed(agents: map<Id, Agent>, source: Id, gone: set<Id>)
    requires gone == Elements(Listing(MoveRows(agents, source)))
    ensures Movers(agents, source) <= gone
  {
    forall g | g in Movers(agents, source) ensures g in gone {
      assert g in MoveRows(agents, source);
    }
  }

  /** How many agents go along. */
  ghost function Going(s: Db, source: Id, count: int): nat
    requires count >= 0
  {
    var size := |Listing(MoveRows(s.agents, source))|;
    if count <= size then count else size
  }

  lemma CapacityIs(s: Db, source: Id, target: Id, count: int, now: real)
    requires MoveCapacity(s, source, target, count, now).Ok?
    ensures count > 0 && ActivePartition(s.partitions, source) && ActivePartition(s.partitions, target)
    ensures count <= s.partitions[source].desired && source != target
    ensures MoveCapacity(s, source, target, count, now)
      == MoveEach(Shifted(s, source, target, count), Listing(MoveRows(s.agents, source))[..Going(s, source, count)],
                  target, now)
  {
  }

  /** As many agents as capacity move, while there are any, idle READY ones first. */
  lemma CapacityMoves(s: Db, source: Id, target: Id, count: int, now: real) returns (gone: set<Id>)
    requires MoveCapacity(s, source, target, count, now).Ok?
    ensures MovesOut(s.agents, MoveCapacity(s, source, target, count, now).value.agents, source, target, gone)
    ensures |gone| == count || (|gone| < count && gone == Movers(s.agents, source))
  {
    CapacityIs(s, source, target, count, now);
    var list, n := Listing(MoveRows(s.agents, source)), Going(s, source, count);
    gone := ListMoves(Shifted(s, source, target, count), source, target, n, now);
    if n < count {
      assert list[..n] == list;
      AllListed(s.agents, source, gone);
    }
  }

  lemma ListMoves(s: Db, source: Id, target: Id, n: nat, now: real) returns (gone: set<Id>)
    requires n <= |Listing(MoveRows(s.agents, source))| && ActivePartition(s.partitions, target)
    requires MoveEach(s, Listing(MoveRows(s.agents, source))[..n], target, now).Ok?
    ensures MovesOut(s.agents, MoveEach(s, Listing(MoveRows(s.agents, source))[..n], target, now).value.agents, source,
                     target, gone)
    ensures gone == Elements(Listing(MoveRows(s.agents, source))[..n]) && |gone| == n
  {
    var list := Listing(MoveRows(s.agents, source));
    ListingDistinct(MoveRows(s.agents, source));
    assert Distinct(list[..n]);
    MoveEachGoes(s, list[..n], target, now);
    gone := Elements(list[..n]);
    DistinctCount(list[..n]);
    ChosenMove(s, MoveEach(s, list[..n], target, now).value, source, target, n, gone);
  }
}
