/** Merge chains in runs: exactly when their revisions strictly increase. */
module MergeChains {
  import opened Options
  import opened RowOrder
  import opened Tables
  import opened Topology
  import opened Work
  import opened Invariants
  import opened TopologyProofs
  import opened ReshapeProofs
  import opened TopologyOps
  import opened Runs
  import opened Ground
  import opened Revisions
  import PoolExact

  // ---------------------------------------------------------------- what a call revises

  /** The existing partitions a call gives a new revision when it commits. */
  function Revises(c: Call): set<Id> {
    if !c.Pool? then {}
    else
      match c.pool
      case Resize(name, _) => {name}
      case MoveMany(source, target, _) => {source, target}
      case Merge(from, into) => {from, into}
      case Retire(name) => {name}
      case _ => {}
  }

  /** The link a call adds when it commits. */
  function Links(c: Call): Option<(Id, Id)> {
    if c.Pool? && c.pool.Merge? then Some((c.pool.from, c.pool.into)) else None
  }

  // ---------------------------------------------------------------- call by call

  lemma UpsertRevises(s: Db, spec: PartitionSpec)
    requires UpsertPartition(s, spec).Ok?
    ensures Revised(s.partitions, UpsertPartition(s, spec).value.partitions, s.revision, {}, None)
  {
    if spec.name in s.partitions {
      UnchangedRevised(s.partitions, s.revision);
    } else {
      AddedRevises(s.partitions, s.revision, spec.name, UpsertPartition(s, spec).value.partitions[spec.name]);
    }
  }

  lemma ResizeRevises(s: Db, name: Id, desired: int)
    requires ResizePartition(s, name, desired).Ok?
    ensures Revised(s.partitions, ResizePartition(s, name, desired).value.partitions, s.revision, {name}, None)
  {
    OneRevises(s.partitions, s.revision, name, ResizePartition(s, name, desired).value.partitions[name]);
  }

  lemma ShiftedRevises(s: Db, source: Id, target: Id, count: nat)
    requires source != target && ActivePartition(s.partitions, source) && ActivePartition(s.partitions, target)
    requires count <= s.partitions[source].desired
    ensures Revised(s.partitions, Shifted(s, source, target, count).partitions, s.revision, {source, target}, None)
  {
  }

  lemma MoveRevises(s: Db, source: Id, target: Id, count: int, now: real)
    requires Inv(s) && MoveCapacity(s, source, target, count, now).Ok?
    ensures Revised(s.partitions, MoveCapacity(s, source, target, count, now).value.partitions, s.revision,
                    {source, target}, None)
  {
    PoolExact.ShiftedOk(s, source, target, count);
    PoolExact.MovePartitions(s, source, target, count, now);
    ShiftedRevises(s, source, target, count);
  }

  lemma MergeRevises(s: Db, source: Id, target: Id, now: real)
    requires Inv(s) && MergePartitions(s, source, target, now).Ok?
    ensures Revised(s.partitions, MergePartitions(s, source, target, now).value.partitions, s.revision,
                    {source, target}, Some((source, target)))
  {
    InvAgentsOk(s);
    PoolExact.MergePartitionRows(s, source, target, now);
    var parts := MergePartitions(s, source, target, now).value.partitions;
    MergedRevises(s.partitions, s.revision, source, target, parts[source], parts[target]);
  }

  lemma RetireRevises(s: Db, name: Id, now: real)
    requires Inv(s) && RetirePartition(s, name, now).Ok?
    ensures Revised(s.partitions, RetirePartition(s, name, now).value.partitions, s.revision, {name}, None)
  {
    InvAgentsOk(s);
    NobodyWorks(s, name, now);
    RetireVacates(s, name, now);
    OneRevises(s.partitions, s.revision, name, RetirePartition(s, name, now).value.partitions[name]);
  }

  predicate Reshapes(c: PoolCall) {
    c.Upsert? || c.Resize? || c.MoveMany? || c.Merge? || c.Retire?
  }

  /** The remaining pool calls move agents only. */
  lemma AgentsOnly(s: Db, c: PoolCall, now: real)
    requires Inv(s) && ApplyPool(s, c, now).Ok?
    requires !Reshapes(c)
    ensures Grounded(s, ApplyPool(s, c, now).value)
  {
    InvAgentsOk(s);
    match c
    case Birth(id, home, workstream, tags) => BirthMoves(s, id, home, workstream, tags, now);
    case Move(g, to) => MoveAgentMoves(s, g, to, now);
    case Reconcile(draw) => PoolExact.ReconcileExact(s, draw, now);
    case Ensure(draw) => ServeEachMoves(s, Listing(QueuedRows(s)), 0, draw, now);
    case Revive(g, on) => ReviveMoves(s, g, on, now);
    case MarkLost(i) => MarkLostMoves(s, i, now);
  }

  lemma ReshapeRevises(s: Db, c: PoolCall, now: real)
    requires Inv(s) && ApplyPool(s, c, now).Ok? && Reshapes(c)
    ensures Revised(s.partitions, ApplyPool(s, c, now).value.partitions, s.revision, Revises(Pool(c)), Links(Pool(c)))
  {
    match c
    case Upsert(spec) => UpsertRevises(s, spec);
    case Resize(name, desired) => ResizeRevises(s, name, desired);
    case MoveMany(source, target, count) => MoveRevises(s, source, target, count, now);
    case Merge(from, into) => MergeRevises(s, from, into, now);
    case Retire(name) => RetireRevises(s, name, now);
  }

  lemma PoolRevises(s: Db, c: PoolCall, now: real)
    requires Inv(s) && ApplyPool(s, c, now).Ok?
    ensures Revised(s.partitions, ApplyPool(s, c, now).value.partitions, s.revision, Revises(Pool(c)), Links(Pool(c)))
  {
    if Reshapes(c) {
      ReshapeRevises(s, c, now);
    } else {
      AgentsOnly(s, c, now);
      UnchangedRevised(s.partitions, s.revision);
    }
  }

  lemma WorkGround(s: Db, c: WorkCall, now: real)
    requires ApplyWork(s, c, now).Ok?
    ensures Grounded(s, ApplyWork(s, c, now).value)
  {
    match c
    case Submit(batch, specs) => SubmitGround(s, batch, specs, now);
    case ClaimAny(a, seconds) => ClaimGround(s, a, seconds, now);
    case ClaimFor(g, a, seconds) => ClaimNextGround(s, g, a, seconds, now);
    case Create(a, epoch, target, isolated, x, i) => CreateGround(s, a, epoch, target, isolated, x, i, now);
    case _ =>
  }

  lemma SettlingGround(s: Db, c: SettleCall, now: real)
    requires ApplySettle(s, c, now).Ok?
    ensures Grounded(s, ApplySettle(s, c, now).value)
  {
    match c
    case Succeed(a, epoch, x, capsule, quiescent, reusable, drawn) =>
      AckGround(s, a, epoch, x, capsule, quiescent, reusable, drawn, now);
    case Fail(a, epoch, x, report, drawn, at) => NackGround(s, a, epoch, x, report, drawn, at, now);
    case Expire(unstarted, draw) => ExpireGround(s, Listing(LapsedRows(s, unstarted, now)), 0, draw, now);
    case CancelOne(t, confirmed, drawn) => CancelTaskGround(s, t, confirmed, drawn, now);
    case CancelAll(b, draw) => CancelBatchGround(s, b, draw, now);
    case Resolve(k, how, vouched, notice) => ResolveGround(s, k, how, vouched, notice, now);
    case AckRow(r) =>
  }

  // ---------------------------------------------------------------- one step

  ghost function RevisedBy(s: Db, step: Step): set<Id> {
    if Apply(s, step.call, step.now).Ok? then Revises(step.call) else {}
  }

  ghost function LinkedBy(s: Db, step: Step): Option<(Id, Id)> {
    if Apply(s, step.call, step.now).Ok? then Links(step.call) else None
  }

  lemma StepRevises(s: Db, step: Step)
    requires Inv(s)
    ensures Revised(s.partitions, After(s, step).partitions, s.revision, RevisedBy(s, step), LinkedBy(s, step))
  {
    UnchangedRevised(s.partitions, s.revision);
    if Apply(s, step.call, step.now).Ok? {
      match step.call
      case Pool(c) => PoolRevises(s, c, step.now);
      case Working(c) => WorkGround(s, c, step.now);
      case Settling(c) => SettlingGround(s, c, step.now);
    }
  }

  /** After any step the link from `p` is tied exactly when the step merged `p`, or it was
      tied and the step did not revise its target. */
  lemma TiedExactly(s: Db, step: Step, p: Id)
    requires Inv(s)
    ensures Tied(After(s, step).partitions, p) <==>
      || (LinkedBy(s, step).Some? && LinkedBy(s, step).value.0 == p)
      || (Tied(s.partitions, p) && s.partitions[p].mergedInto.value !in RevisedBy(s, step))
  {
    StepRevises(s, step);
    RevisedTied(s.partitions, After(s, step).partitions, s.revision, RevisedBy(s, step), LinkedBy(s, step), p);
  }

  /** A step keeps every link strict exactly when it does not commit a merge. */
  lemma StrictExactly(s: Db, step: Step)
    requires Inv(s) && Strict(s.partitions)
    ensures Strict(After(s, step).partitions) <==> LinkedBy(s, step).None?
  {
    AfterInv(s, step);
    StrictUntied(s.partitions, s.revision);
    StrictUntied(After(s, step).partitions, After(s, step).revision);
    forall p ensures Tied(After(s, step).partitions, p) <==>
      LinkedBy(s, step).Some? && LinkedBy(s, step).value.0 == p {
      TiedExactly(s, step, p);
    }
    if LinkedBy(s, step).Some? {
      assert Tied(After(s, step).partitions, LinkedBy(s, step).value.0);
    }
  }

  // ---------------------------------------------------------------- whole runs

  ghost function ChangeOf(s: Db, step: Step): Change {
    Change(RevisedBy(s, step), LinkedBy(s, step))
  }

  /** What the steps of a run did to the partitions, in order. */
  ghost function Changes(steps: seq<Step>): (changes: seq<Change>)
    ensures |changes| == |steps|
  {
    if steps == [] then []
    else
      var n := |steps| - 1;
      Changes(steps[..n]) + [ChangeOf(Run(EMPTY, steps[..n]), steps[n])]
  }

  lemma StepRecorded(s: Db, step: Step, changes: seq<Change>)
    requires Inv(s) && Recorded(s.partitions, s.revision, changes)
    ensures Recorded(After(s, step).partitions, After(s, step).revision, changes + [ChangeOf(s, step)])
  {
    AfterInv(s, step);
    StepRevises(s, step);
    RecordGrows(s.partitions, s.revision, changes, After(s, step).partitions, After(s, step).revision,
                ChangeOf(s, step));
  }

  lemma {:induction false} RunRecorded(steps: seq<Step>)
    ensures Recorded(Run(EMPTY, steps).partitions, Run(EMPTY, steps).revision, Changes(steps))
  {
    if steps == [] {
      NothingRecorded();
    } else {
      var n := |steps| - 1;
      RunRecorded(steps[..n]);
      ReachableInv(steps[..n]);
      StepRecorded(Run(EMPTY, steps[..n]), steps[n], Changes(steps[..n]));
    }
  }

  /** In every run the link from `p` is tied exactly when nothing has revised its target since
      the merge that made it. */
  lemma TiedInRun(steps: seq<Step>, p: Id)
    ensures Tied(Run(EMPTY, steps).partitions, p) <==> TieRecorded(Changes(steps), p)
  {
    RunRecorded(steps);
    TiedRecorded(Run(EMPTY, steps).partitions, Run(EMPTY, steps).revision, Changes(steps), p);
  }

  /** Merge chains strictly increase exactly when the target of every merge was revised again. */
  lemma StrictInRun(steps: seq<Step>)
    ensures Strict(Run(EMPTY, steps).partitions) <==> AllRevisedAgain(Changes(steps))
  {
    RunRecorded(steps);
    StrictRecorded(Run(EMPTY, steps).partitions, Run(EMPTY, steps).revision, Changes(steps));
  }

  // ---------------------------------------------------------------- a run that ends tied

  const EAST := PartitionSpec(0, 0, Resident, 0, 0, {})
  const WEST := PartitionSpec(1, 0, Resident, 0, 0, {})
  const TWO := EMPTY.(
    partitions := map[0 := Partition(0, Resident, 0, 0, {}, true, None, 1),
                      1 := Partition(0, Resident, 0, 0, {}, true, None, 2)],
    revision := 2)

  lemma Founded()
    ensures UpsertPartition(EMPTY, EAST).Ok? && UpsertPartition(UpsertPartition(EMPTY, EAST).value, WEST) == Ok(TWO)
  {
  }

  lemma Mergeable()
    ensures MergePartitions(TWO, 0, 1, 0.0).Ok?
  {
    var s0 := Rebased(TWO, 0, 1);
    assert s0.agents == map[];
    assert forall g :: g !in ImmediateList(s0.agents, 0);
    assert ImmediateList(s0.agents, 0) == [];
  }

  lemma TwoReachable()
    ensures Reachable(TWO)
  {
    assert Run(EMPTY, []) == EMPTY;
    Founded();
    Continues(EMPTY, Pool(Upsert(EAST)), 0.0);
    Continues(UpsertPartition(EMPTY, EAST).value, Pool(Upsert(WEST)), 0.0);
  }

  lemma MergedTied(s: Db, source: Id, target: Id, now: real)
    requires Inv(s) && MergePartitions(s, source, target, now).Ok?
    ensures Tied(MergePartitions(s, source, target, now).value.partitions, source)
  {
    MergeRevises(s, source, target, now);
    RevisedTied(s.partitions, MergePartitions(s, source, target, now).value.partitions, s.revision, {source, target},
                Some((source, target)), source);
  }

  lemma ReachableTied(s: Db, source: Id, target: Id, now: real)
    requires Reachable(s) && MergePartitions(s, source, target, now).Ok?
    ensures Tied(MergePartitions(s, source, target, now).value.partitions, source)
  {
    ReachableHolds(s);
    MergedTied(s, source, target, now);
  }

  lemma MergeReaches(s: Db, source: Id, target: Id, now: real)
    requires Reachable(s) && MergePartitions(s, source, target, now).Ok?
    ensures Reachable(MergePartitions(s, source, target, now).value)
  {
    Continues(s, Pool(Merge(source, target)), now);
  }

  /** Two partitions and a merge: the link is tied, so chains need not increase strictly. */
  lemma MergeTies() returns (s: Db)
    ensures Reachable(s) && Tied(s.partitions, 0) && !Strict(s.partitions)
  {
    TwoReachable();
    Mergeable();
    MergeReaches(TWO, 0, 1, 0.0);
    ReachableTied(TWO, 0, 1, 0.0);
    s := MergePartitions(TWO, 0, 1, 0.0).value;
    TiedNotStrict(s.partitions, 0);
  }
}
