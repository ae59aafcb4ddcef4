/** Reconciliation meets every desired capacity exactly, and moves and merges conserve
    the total. */
module PoolExact {
  import opened Options
  import opened RowOrder
  import opened Tables
  import opened Topology
  import opened Work
  import opened Invariants
  import opened TopologyProofs
  import opened TopologyOps
  import opened ReshapeProofs

  // ---------------------------------------------------------------- membership

  /** Nobody joins or leaves any other partition. */
  ghost predicate OthersKept(agents: map<Id, Agent>, agents': map<Id, Agent>, name: Id) {
    forall p | p != name :: Members(agents', p) == Members(agents, p)
  }

  lemma JoinCounts(agents: map<Id, Agent>, id: Id, row: Agent, name: Id)
    requires id !in agents && Counted(row, name)
    ensures |Members(agents[id := row], name)| == |Members(agents, name)| + 1
      && OthersKept(agents, agents[id := row], name)
  {
    var agents' := agents[id := row];
    assert Members(agents', name) == Members(agents, name) + {id};
    forall p | p != name ensures Members(agents', p) == Members(agents, p) {
      assert !Counted(row, p);
    }
  }

  lemma BirthCounts(s: Db, id: Id, name: Id, now: real)
    requires BirthAgent(s, id, name, None, None, now).Ok?
    ensures var s' := BirthAgent(s, id, name, None, None, now).value;
      && s'.partitions == s.partitions && OthersKept(s.agents, s'.agents, name)
      && |Members(s'.agents, name)| == |Members(s.agents, name)| + 1
  {
    JoinCounts(s.agents, id, BirthAgent(s, id, name, None, None, now).value.agents[id], name);
  }

  lemma {:induction false} BirthEachCounts(s: Db, name: Id, n: nat, born: nat, draw: nat -> Id, now: real)
    requires BirthEach(s, name, n, born, draw, now).Ok?
    ensures var s' := BirthEach(s, name, n, born, draw, now).value;
      && s'.partitions == s.partitions && OthersKept(s.agents, s'.agents, name)
      && |Members(s'.agents, name)| == |Members(s.agents, name)| + n
    decreases n
  {
    if n > 0 {
      BirthCounts(s, draw(born), name, now);
      BirthEachCounts(BirthAgent(s, draw(born), name, None, None, now).value, name, n - 1, born + 1, draw, now);
    }
  }

  lemma ShedRowUncounted(agent: Agent, p: Id)
    ensures !Counted(ShedRow(agent), p)
  {
  }

  lemma ShedCounts(agents: map<Id, Agent>, g: Id, name: Id)
    requires g in agents && Counted(agents[g], name)
    ensures Members(agents[g := ShedRow(agents[g])], name) == Members(agents, name) - {g}
    ensures OthersKept(agents, agents[g := ShedRow(agents[g])], name)
  {
    var agents' := agents[g := ShedRow(agents[g])];
    forall p ensures Members(agents', p) == Members(agents, p) - {g} {
      ShedRowUncounted(agents[g], p);
    }
    forall p | p != name ensures g !in Members(agents, p) {
    }
  }

  lemma {:induction false} ShedEachCounts(s: Db, list: seq<Id>, name: Id)
    requires Distinct(list) && forall g | g in list :: g in s.agents && Counted(s.agents[g], name)
    ensures var s' := ShedEach(s, list);
      && s'.partitions == s.partitions && OthersKept(s.agents, s'.agents, name)
      && |Members(s'.agents, name)| + |list| == |Members(s.agents, name)|
    decreases |list|
  {
    if list != [] {
      var g := list[0];
      assert g in list;
      ShedCounts(s.agents, g, name);
      var s1 := Shed(s, g);
      forall h | h in list[1..] ensures h in s1.agents && Counted(s1.agents[h], name) {
        var i :| 0 <= i < |list[1..]| && list[1..][i] == h;
        assert list[0] != list[i + 1];
        assert list[i + 1] in list;
      }
      ShedEachCounts(s1, list[1..], name);
      assert g in Members(s.agents, name);
    }
  }

  lemma SurplusExact(s: Db, name: Id, n: nat)
    requires n <= |Members(s.agents, name)|
    ensures var s' := ShedEach(s, Surplus(s.agents, name, n));
      && s'.partitions == s.partitions && OthersKept(s.agents, s'.agents, name)
      && |Members(s'.agents, name)| == |Members(s.agents, name)| - n
  {
    SurplusMembers(s.agents, name, n);
    ShedEachCounts(s, Surplus(s.agents, name, n), name);
  }

  lemma ReconcilePartitionExact(s: Db, name: Id, born: nat, draw: nat -> Id, now: real)
    requires name in s.partitions && ReconcilePartition(s, name, born, draw, now).Ok?
    ensures var s' := ReconcilePartition(s, name, born, draw, now).value;
      && s'.partitions == s.partitions && OthersKept(s.agents, s'.agents, name)
      && |Members(s'.agents, name)| == s.partitions[name].desired
  {
    if ExcessIn(s, name) == 0 {
      BirthEachCounts(s, name, BornIn(s, name), born, draw, now);
    } else {
      SurplusExact(s, name, ExcessIn(s, name));
    }
  }

  /** Membership equals desired capacity for the listed partitions. */
  ghost predicate Exact(s: Db, names: seq<Id>) {
    forall p | p in names :: p in s.partitions && |Members(s.agents, p)| == s.partitions[p].desired
  }

  /** One partition reconciled, then the others without touching it. */
  lemma ExactStep(s: Db, s1: Db, s': Db, names: seq<Id>)
    requires names != [] && Distinct(names) && names[0] in s.partitions && s1.partitions == s.partitions
      && s'.partitions == s.partitions
    requires OthersKept(s.agents, s1.agents, names[0])
      && |Members(s1.agents, names[0])| == s.partitions[names[0]].desired
    requires Exact(s', names[1..]) && forall p | p !in names[1..] :: Members(s'.agents, p) == Members(s1.agents, p)
    ensures Exact(s', names) && forall p | p !in names :: Members(s'.agents, p) == Members(s.agents, p)
  {
    assert names[0] !in names[1..] by {
      assert forall i | 0 <= i < |names[1..]| :: names[1..][i] == names[i + 1];
    }
    forall p | p in names ensures p in s'.partitions && |Members(s'.agents, p)| == s'.partitions[p].desired {
      assert p == names[0] || p in names[1..];
    }
    forall p | p !in names ensures Members(s'.agents, p) == Members(s.agents, p) {
      assert p !in names[1..] && p != names[0];
    }
  }

  lemma {:induction false} ReconcileEachExact(s: Db, names: seq<Id>, born: nat, draw: nat -> Id, now: real)
    requires Distinct(names) && ReconcileEach(s, names, born, draw, now).Ok?
    ensures var s' := ReconcileEach(s, names, born, draw, now).value;
      && s'.partitions == s.partitions && Exact(s', names)
      && forall p | p !in names :: Members(s'.agents, p) == Members(s.agents, p)
    decreases |names|
  {
    if names != [] {
      ReconcilePartitionExact(s, names[0], born, draw, now);
      var (s1, next) := ReconcileNext(s, names[0], born, draw, now).value;
      ReconcileEachExact(s1, names[1..], next, draw, now);
      ExactStep(s, s1, ReconcileEach(s, names, born, draw, now).value, names);
    }
  }

  lemma {:induction false} ExactSettled(s: Db, names: seq<Id>, born: nat, draw: nat -> Id, now: real)
    requires Exact(s, names)
    ensures ReconcileEach(s, names, born, draw, now) == Ok(s)
    decreases |names|
  {
    if names != [] {
      assert names[0] in names;
      assert ReconcilePartition(s, names[0], born, draw, now) == BirthEach(s, names[0], 0, born, draw, now);
      assert ReconcileNext(s, names[0], born, draw, now) == Ok((s, born));
      assert Exact(s, names[1..]) by {
        forall p | p in names[1..] ensures p in s.partitions && |Members(s.agents, p)| == s.partitions[p].desired {
          assert p in names;
        }
      }
      ExactSettled(s, names[1..], born, draw, now);
    }
  }

  // ---------------------------------------------------------------- reconcile_pool

  /** Every active partition holds exactly the agents it wants. */
  lemma ReconcileExact(s: Db, draw: nat -> Id, now: real)
    requires Inv(s) && ReconcilePool(s, draw, now).Ok?
    ensures var s' := ReconcilePool(s, draw, now).value;
      && s'.partitions == s.partitions
      && forall p | p in s'.partitions && s'.partitions[p].active :: |Members(s'.agents, p)| == s'.partitions[p].desired
  {
    NoIdleDrains(s);
    ReconcileListExact(s, draw, now);
  }

  lemma ReconcileListExact(s: Db, draw: nat -> Id, now: real)
    requires IdleDrains(s.agents) == [] && ReconcilePool(s, draw, now).Ok?
    ensures var s' := ReconcilePool(s, draw, now).value;
      && s'.partitions == s.partitions && Exact(s', ById(ActiveNames(s'.partitions)))
      && forall p | p in s'.partitions && s'.partitions[p].active :: |Members(s'.agents, p)| == s'.partitions[p].desired
  {
    var names := ById(ActiveNames(s.partitions));
    ListingDistinct(ByIdRows(ActiveNames(s.partitions)));
    ReconcileEachExact(s, names, 0, draw, now);
    var s' := ReconcilePool(s, draw, now).value;
    forall p | p in s'.partitions && s'.partitions[p].active
      ensures |Members(s'.agents, p)| == s'.partitions[p].desired {
      assert p in names;
    }
  }

  /** A second reconciliation changes nothing, whatever ids and clock it is given. */
  lemma ReconcileIdempotent(s: Db, draw: nat -> Id, now: real, draw': nat -> Id, now': real)
    requires Inv(s) && ReconcilePool(s, draw, now).Ok?
    ensures ReconcilePool(ReconcilePool(s, draw, now).value, draw', now') == Ok(ReconcilePool(s, draw, now).value)
  {
    var s' := ReconcilePool(s, draw, now).value;
    NoIdleDrains(s);
    ReconcileListExact(s, draw, now);
    ReconcileInv(s, draw, now);
    NoIdleDrains(s');
    ExactSettled(s', ById(ActiveNames(s'.partitions)), 0, draw', now');
  }

  // ---------------------------------------------------------------- conservation of desired capacity

  function Sum(parts: map<Id, Partition>, list: seq<Id>): nat
    requires forall p | p in list :: p in parts
  {
    if list == [] then 0 else Sum(parts, list[..|list| - 1]) + parts[list[|list| - 1]].desired
  }

  /** Desired capacity over all partitions; an inactive one wants nobody. */
  function Total(parts: map<Id, Partition>): nat {
    Sum(parts, ById(parts.Keys))
  }

  lemma {:induction false} SumUpdate(parts: map<Id, Partition>, p: Id, row: Partition, list: seq<Id>)
    requires p in parts && Distinct(list) && forall q | q in list :: q in parts
    ensures Sum(parts[p := row], list) + (if p in list then parts[p].desired else 0)
         == Sum(parts, list) + (if p in list then row.desired else 0)
  {
    if list != [] {
      var n := |list| - 1;
      SumUpdate(parts, p, row, list[..n]);
      assert p in list <==> p in list[..n] || p == list[n];
      assert list[n] !in list[..n];
    }
  }

  lemma TotalUpdate(parts: map<Id, Partition>, p: Id, row: Partition)
    requires p in parts
    ensures Total(parts[p := row]) + parts[p].desired == Total(parts) + row.desired
  {
    assert parts[p := row].Keys == parts.Keys;
    ListingDistinct(ByIdRows(parts.Keys));
    SumUpdate(parts, p, row, ById(parts.Keys));
  }

  lemma TotalTwo(parts: map<Id, Partition>, p: Id, q: Id, rowP: Partition, rowQ: Partition)
    requires p in parts && q in parts && p != q && rowP.desired + rowQ.desired == parts[p].desired + parts[q].desired
    ensures Total(parts[p := rowP][q := rowQ]) == Total(parts)
  {
    TotalUpdate(parts, p, rowP);
    TotalUpdate(parts[p := rowP], q, rowQ);
  }

  /** Moving capacity creates and destroys none. */
  lemma MoveConserves(s: Db, source: Id, target: Id, count: int, now: real)
    requires Inv(s) && MoveCapacity(s, source, target, count, now).Ok?
    ensures Total(MoveCapacity(s, source, target, count, now).value.partitions) == Total(s.partitions)
  {
    ShiftedOk(s, source, target, count);
    MovePartitions(s, source, target, count, now);
    ShiftedTotal(s, source, target, count);
  }

  lemma ShiftedOk(s: Db, source: Id, target: Id, count: nat)
    requires Inv(s) && source != target && ActivePartition(s.partitions, source)
      && ActivePartition(s.partitions, target)
    requires count <= s.partitions[source].desired
    ensures var s0 := Shifted(s, source, target, count); AgentsOk(s0.agents, s0.partitions)
  {
    ShiftedInv(s, source, target, count);
    InvAgentsOk(Shifted(s, source, target, count));
  }

  lemma ShiftedTotal(s: Db, source: Id, target: Id, count: nat)
    requires source != target && ActivePartition(s.partitions, source) && ActivePartition(s.partitions, target)
    requires count <= s.partitions[source].desired
    ensures Total(Shifted(s, source, target, count).partitions) == Total(s.partitions)
  {
    var parts := Shifted(s, source, target, count).partitions;
    TotalTwo(s.partitions, source, target, parts[source], parts[target]);
  }

  lemma MovePartitions(s: Db, source: Id, target: Id, count: int, now: real)
    requires MoveCapacity(s, source, target, count, now).Ok?
    requires var s0 := Shifted(s, source, target, count); AgentsOk(s0.agents, s0.partitions)
    ensures MoveCapacity(s, source, target, count, now).value.partitions == Shifted(s, source, target, count).partitions
  {
    MoveListMoves(Shifted(s, source, target, count), source, count, target, now);
  }

  /** Merging hands the source's capacity to the target, in the same revision. */
  ghost predicate HandedOver(parts: map<Id, Partition>, parts': map<Id, Partition>, source: Id, target: Id,
                             revision: nat) {
    && source in parts' && target in parts' && !parts'[source].active && parts'[source].desired == 0
    && parts'[source].mergedInto == Some(target) && parts'[source].revision == parts'[target].revision == revision
    && Total(parts') == Total(parts)
  }

  lemma MergePartitionRows(s: Db, source: Id, target: Id, now: real)
    requires TopologyOk(s) && AgentsOk(s.agents, s.partitions) && MergePartitions(s, source, target, now).Ok?
    ensures MergePartitions(s, source, target, now).value.partitions
      == s.partitions[source := s.partitions[source].(active := false, desired := 0, mergedInto := Some(target),
                                                      revision := s.revision + 1)]
                     [target := s.partitions[target].(desired :=
                       s.partitions[source].desired + s.partitions[target].desired, revision := s.revision + 1)]
  {
    var s0 := Rebased(s, source, target);
    RebaseReshapes(s, source, target);
    MergeMembersReshape(s0, source, target, now);
    var s1 := MergeEach(s0, ImmediateList(s0.agents, source), source, target, now).value;
    var s2 := s1.(agents := StageMerged(s1.agents, source, target));
    assert s2.partitions == s.partitions && s2.revision == s.revision + 1;
    assert MergePartitions(s, source, target, now).value
      == CloseSource(s2, source, target, s.partitions[source].desired + s.partitions[target].desired);
  }

  lemma MergeConserves(s: Db, source: Id, target: Id, now: real)
    requires Inv(s) && MergePartitions(s, source, target, now).Ok?
    ensures HandedOver(s.partitions, MergePartitions(s, source, target, now).value.partitions, source, target,
                       s.revision + 1)
  {
    InvAgentsOk(s);
    MergePartitionRows(s, source, target, now);
    var parts := MergePartitions(s, source, target, now).value.partitions;
    TotalTwo(s.partitions, source, target, parts[source], parts[target]);
  }
}
