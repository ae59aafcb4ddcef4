/** Every run of the scheduler: any sequence of calls, each committed or rolled back. */
module Runs {
  import opened Options
  import opened RowOrder
  import opened Tables
  import opened Topology
  import opened Work
  import opened Invariants
  import TopologyOps
  import QuietOps
  import ClaimOps
  import ExecutionOps
  import SubmitOps
  import SettleOps
  import CancelOps
  import ResolveOps
  import opened ReshapeProofs
  import opened History
  import HistoryOps

  /** Calls on partitions and agents. */
  datatype PoolCall =
    | Upsert(spec: PartitionSpec)
    | Resize(name: Id, desired: int)
    | Birth(id: Id, home: Id, workstream: Option<Id>, tags: Option<set<Id>>)
    | Move(agent: Id, to: Id)
    | MoveMany(source: Id, target: Id, count: int)
    | Merge(from: Id, into: Id)
    | Retire(partition: Id)
    | Reconcile(draw: nat -> Id)
    | Ensure(drawAgent: nat -> Id)
    | Revive(revived: Id, on: Id)
    | MarkLost(incarnation: Id)

  /** Calls that submit, claim and run. */
  datatype WorkCall =
    | Submit(batch: Id, specs: seq<TaskSpec>)
    | ClaimAny(attempt: Id, seconds: real)
    | ClaimFor(agent: Id, attempt: Id, seconds: real)
    | Create(attempt: Id, epoch: nat, target: Id, isolated: bool, execution: Id, incarnation: Id)
    | Confirm(attempt: Id, epoch: nat, execution: Id, seconds: real)
    | Ambiguous(attempt: Id, epoch: nat, execution: Id)
    | Observe(execution: Id, state: ExecutionState, terminal: bool, quiescent: bool)
    | Beat(attempt: Id, epoch: nat, seconds: real)
    | Renew(supervised: set<Id>, seconds: real)
    | Checkpoint(attempt: Id, epoch: nat, capsule: Capsule)
    | PromoteRetries

  /** Calls that settle attempts, tasks and decisions. */
  datatype SettleCall =
    | Succeed(attempt: Id, epoch: nat, supplied: Option<Id>, capsule: Capsule, quiescent: bool, reusable: bool,
              drawn: Drawn)
    | Fail(attempt: Id, epoch: nat, supplied: Option<Id>, report: Report, drawn: Drawn, at: real)
    | Expire(unstarted: bool, draw: nat -> Drawn)
    | CancelOne(task: Id, confirmed: bool, drawn: Drawn)
    | CancelAll(batch: Id, draw: nat -> Drawn)
    | Resolve(escalation: Id, how: Resolution, vouched: bool, notice: Id)
    | AckRow(result: Id)

  datatype Call = Pool(pool: PoolCall) | Working(work: WorkCall) | Settling(settle: SettleCall)

  datatype Step = Step(call: Call, now: real)

  function ApplyPool(s: Db, c: PoolCall, now: real): Outcome<Db> {
    match c
    case Upsert(spec) => UpsertPartition(s, spec)
    case Resize(name, desired) => ResizePartition(s, name, desired)
    case Birth(id, home, workstream, tags) => BirthAgent(s, id, home, workstream, tags, now)
    case Move(g, to) => MoveAgent(s, g, to, now)
    case MoveMany(source, target, count) => MoveCapacity(s, source, target, count, now)
    case Merge(from, into) => MergePartitions(s, from, into, now)
    case Retire(name) => RetirePartition(s, name, now)
    case Reconcile(draw) => ReconcilePool(s, draw, now)
    case Ensure(draw) => EnsureTaskConsumers(s, draw, now)
    case Revive(g, on) => ReviveAgent(s, g, on, now)
    case MarkLost(i) => MarkIncarnationLost(s, i, now)
  }

  function Paired(r: Outcome<(Db, Option<(Id, Id)>)>): Outcome<Db> {
    if r.Ok? then Ok(r.value.0) else Err(r.error)
  }

  function Claimed(r: Outcome<(Db, Option<Id>)>): Outcome<Db> {
    if r.Ok? then Ok(r.value.0) else Err(r.error)
  }

  ghost function ApplyWork(s: Db, c: WorkCall, now: real): Outcome<Db> {
    match c
    case Submit(batch, specs) => SubmitBatch(s, batch, specs, now)
    case ClaimAny(a, seconds) => Paired(ClaimNextAvailable(s, a, seconds, now))
    case ClaimFor(g, a, seconds) => Claimed(ClaimNext(s, g, a, seconds, now))
    case Create(a, epoch, target, isolated, x, i) => CreateExecution(s, a, epoch, target, isolated, x, i, now)
    case Confirm(a, epoch, x, seconds) => ConfirmRunning(s, a, epoch, x, seconds, now)
    case Ambiguous(a, epoch, x) => RecordStartAmbiguity(s, a, epoch, x, now)
    case Observe(x, state, terminal, quiescent) => RecordPhysicalOutcome(s, x, state, terminal, quiescent)
    case Beat(a, epoch, seconds) => Heartbeat(s, a, epoch, seconds, now)
    case Renew(supervised, seconds) => Ok(RenewActiveLeases(s, supervised, seconds, now))
    case Checkpoint(a, epoch, capsule) => PromoteCheckpoint(s, a, epoch, capsule, now)
    case PromoteRetries => Ok(PromoteRetryWait(s, now))
  }

  function ApplySettle(s: Db, c: SettleCall, now: real): Outcome<Db> {
    match c
    case Succeed(a, epoch, x, capsule, quiescent, reusable, drawn) => AckSuccess(s, a, epoch, x, capsule, quiescent,
      reusable, drawn, now)
    case Fail(a, epoch, x, report, drawn, at) => Nack(s, a, epoch, x, report, drawn, at, now)
    case Expire(unstarted, draw) => ExpireLeases(s, unstarted, draw, now)
    case CancelOne(t, confirmed, drawn) => CancelTask(s, t, confirmed, drawn, now)
    case CancelAll(b, draw) => CancelBatch(s, b, draw, now)
    case Resolve(k, how, vouched, notice) => ResolveEscalation(s, k, how, vouched, notice, now)
    case AckRow(r) => AckResult(s, r)
  }

  ghost function Apply(s: Db, c: Call, now: real): Outcome<Db> {
    match c
    case Pool(p) => ApplyPool(s, p, now)
    case Working(w) => ApplyWork(s, w, now)
    case Settling(e) => ApplySettle(s, e, now)
  }

  /** A failed transaction leaves the tables as they were. */
  ghost function After(s: Db, step: Step): Db {
    var r := Apply(s, step.call, step.now);
    if r.Ok? then r.value else s
  }

  ghost function Run(s: Db, steps: seq<Step>): Db {
    if steps == [] then s else After(Run(s, steps[..|steps| - 1]), steps[|steps| - 1])
  }

  // ---------------------------------------------------------------- the invariant holds in every reachable state

  lemma PoolKeeps(s: Db, c: PoolCall, now: real)
    requires Inv(s) && ApplyPool(s, c, now).Ok?
    ensures Inv(ApplyPool(s, c, now).value) && Reshaped(s, ApplyPool(s, c, now).value)
  {
    match c
    case Upsert(spec) => TopologyOps.UpsertInv(s, spec);
    case Resize(name, desired) => TopologyOps.ResizeInv(s, name, desired);
    case Birth(id, home, workstream, tags) => TopologyOps.BirthInv(s, id, home, workstream, tags, now);
    case Move(g, to) => TopologyOps.MoveAgentInv(s, g, to, now);
    case MoveMany(source, target, count) => TopologyOps.MoveCapacityInv(s, source, target, count, now);
    case Merge(from, into) => TopologyOps.MergeInv(s, from, into, now);
    case Retire(name) => TopologyOps.RetirePartitionInv(s, name, now);
    case Reconcile(draw) => TopologyOps.ReconcileInv(s, draw, now);
    case Ensure(draw) => TopologyOps.EnsureInv(s, draw, now);
    case Revive(g, on) => TopologyOps.ReviveInv(s, g, on, now);
    case MarkLost(i) => TopologyOps.MarkLostInv(s, i, now);
  }

  lemma WorkKeeps(s: Db, c: WorkCall, now: real)
    requires Inv(s) && ApplyWork(s, c, now).Ok?
    ensures Inv(ApplyWork(s, c, now).value)
  {
    match c
    case Submit(batch, specs) => SubmitOps.SubmitInv(s, batch, specs, now);
    case ClaimAny(a, seconds) => ClaimOps.NextAvailableInv(s, a, seconds, now);
    case ClaimFor(g, a, seconds) => ClaimOps.ClaimNextInv(s, g, a, seconds, now);
    case Create(a, epoch, target, isolated, x, i) => ExecutionOps.CreateInv(s, a, epoch, target, isolated, x, i, now);
    case Confirm(a, epoch, x, seconds) => QuietOps.ConfirmInv(s, a, epoch, x, seconds, now);
    case Ambiguous(a, epoch, x) => QuietOps.AmbiguityInv(s, a, epoch, x, now);
    case Observe(x, state, terminal, quiescent) => QuietOps.PhysicalInv(s, x, state, terminal, quiescent);
    case Beat(a, epoch, seconds) => QuietOps.HeartbeatInv(s, a, epoch, seconds, now);
    case Renew(supervised, seconds) => QuietOps.RenewInv(s, supervised, seconds, now);
    case Checkpoint(a, epoch, capsule) => QuietOps.CheckpointInv(s, a, epoch, capsule, now);
    case PromoteRetries => QuietOps.PromoteRetryInv(s, now);
  }

  /** The escalation a call asks to settle. */
  function SettledBy(c: Call): Option<Id> {
    if c.Settling? && c.settle.Resolve? && !c.settle.how.CancelIt? then Some(c.settle.escalation) else None
  }

  /** The task a call sends back to the queue on Root's word. */
  function PardonedBy(s: Db, c: Call): Option<Id> {
    if c.Settling? && c.settle.Resolve? then ResolveOps.Pardoned(s, c.settle.escalation, c.settle.how) else None
  }

  /** Acks, nacks and expiry settle attempts; they pardon no task and settle no escalation. */
  lemma AttemptKeeps(s: Db, c: SettleCall, now: real)
    requires Inv(s) && ApplySettle(s, c, now).Ok? && (c.Succeed? || c.Fail? || c.Expire?)
    ensures Inv(ApplySettle(s, c, now).value) && Evolves(s, ApplySettle(s, c, now).value, now, None, None)
  {
    match c
    case Succeed(a, epoch, x, capsule, quiescent, reusable, drawn) =>
      SettleOps.AckInv(s, a, epoch, x, capsule, quiescent, reusable, drawn, now);
    case Fail(a, epoch, x, report, drawn, at) => SettleOps.NackInv(s, a, epoch, x, report, drawn, at, now);
    case Expire(unstarted, draw) => SettleOps.ExpireInv(s, unstarted, draw, now);
  }

  /** Neither do cancellations and the consumption of results. */
  lemma CancelKeeps(s: Db, c: SettleCall, now: real)
    requires Inv(s) && ApplySettle(s, c, now).Ok? && (c.CancelOne? || c.CancelAll? || c.AckRow?)
    ensures Inv(ApplySettle(s, c, now).value) && Evolves(s, ApplySettle(s, c, now).value, now, None, None)
  {
    match c
    case CancelOne(t, confirmed, drawn) => CancelOps.CancelTaskInv(s, t, confirmed, drawn, now);
    case CancelAll(b, draw) => CancelOps.CancelBatchInv(s, b, draw, now);
    case AckRow(r) =>
      QuietOps.AckResultInv(s, r);
      HistoryOps.AckResultEvolves(s, r, now);
  }

  /** A resolution settles its escalation, and a retry pardons its task. */
  lemma ResolveKeeps(s: Db, c: SettleCall, now: real)
    requires Inv(s) && ApplySettle(s, c, now).Ok? && c.Resolve?
    ensures Inv(ApplySettle(s, c, now).value)
    ensures Evolves(s, ApplySettle(s, c, now).value, now, PardonedBy(s, Settling(c)), SettledBy(Settling(c)))
  {
    ResolveOps.ResolveInv(s, c.escalation, c.how, c.vouched, c.notice, now);
  }

  lemma SettleKeeps(s: Db, c: SettleCall, now: real)
    requires Inv(s) && ApplySettle(s, c, now).Ok?
    ensures Inv(ApplySettle(s, c, now).value)
    ensures Evolves(s, ApplySettle(s, c, now).value, now, PardonedBy(s, Settling(c)), SettledBy(Settling(c)))
  {
    if c.Resolve? {
      ResolveKeeps(s, c, now);
    } else if c.Succeed? || c.Fail? || c.Expire? {
      AttemptKeeps(s, c, now);
    } else {
      CancelKeeps(s, c, now);
    }
  }

  lemma AfterInv(s: Db, step: Step)
    requires Inv(s)
    ensures Inv(After(s, step))
  {
    if Apply(s, step.call, step.now).Ok? {
      match step.call
      case Pool(p) => PoolKeeps(s, p, step.now);
      case Working(w) => WorkKeeps(s, w, step.now);
      case Settling(e) => SettleKeeps(s, e, step.now);
    }
  }

  lemma EmptyInv()
    ensures Inv(EMPTY)
  {
    assert Numbered(EMPTY.tasks, map[]);
  }

  /** Whatever is called, in whatever order and at whatever times. */
  lemma {:induction false} ReachableInv(steps: seq<Step>)
    ensures Inv(Run(EMPTY, steps))
  {
    if steps == [] {
      EmptyInv();
    } else {
      ReachableInv(steps[..|steps| - 1]);
      AfterInv(Run(EMPTY, steps[..|steps| - 1]), steps[|steps| - 1]);
    }
  }

  ghost predicate Reachable(s: Db) {
    exists steps :: s == Run(EMPTY, steps)
  }

  lemma ReachableHolds(s: Db)
    requires Reachable(s)
    ensures Inv(s)
  {
    var steps :| s == Run(EMPTY, steps);
    ReachableInv(steps);
  }

  /** A committed call goes on from a reachable state to a reachable state. */
  lemma Continues(s: Db, call: Call, now: real)
    requires Reachable(s) && Apply(s, call, now).Ok?
    ensures Reachable(Apply(s, call, now).value)
  {
    var steps :| s == Run(EMPTY, steps);
    var longer := steps + [Step(call, now)];
    assert longer[..|longer| - 1] == steps;
    assert Run(EMPTY, longer) == Apply(s, call, now).value;
  }

  // ---------------------------------------------------------------- what every step does to existing rows

  lemma WorkEvolves(s: Db, c: WorkCall, now: real)
    requires Inv(s) && ApplyWork(s, c, now).Ok?
    ensures Evolves(s, ApplyWork(s, c, now).value, now, None, None)
  {
    match c
    case Submit(batch, specs) => HistoryOps.SubmitEvolves(s, batch, specs, now);
    case ClaimAny(a, seconds) =>
      ClaimOps.NextAvailableResult(s, a, seconds, now);
      var r := ClaimNextAvailable(s, a, seconds, now).value;
      HistoryOps.ClaimResultEvolves(s, r.0, r.1, a, seconds, now);
    case ClaimFor(g, a, seconds) =>
      ClaimOps.ClaimNextResult(s, g, a, seconds, now);
      var r := ClaimNext(s, g, a, seconds, now).value;
      HistoryOps.ClaimResultEvolves(s, r.0, if r.1.None? then None else Some((r.1.value, g)), a, seconds, now);
    case Create(a, epoch, target, isolated, x, i) => HistoryOps.CreateEvolves(s, a, epoch, target, isolated, x, i, now);
    case Confirm(a, epoch, x, seconds) =>
      QuietOps.AuthorityHeld(s, a, epoch, now);
      HistoryOps.ConfirmEvolves(s, a, epoch, x, seconds, now);
    case Ambiguous(a, epoch, x) => HistoryOps.AmbiguityEvolves(s, a, epoch, x, now);
    case Observe(x, state, terminal, quiescent) => HistoryOps.ObserveEvolves(s, x, state, terminal, quiescent, now);
    case Beat(a, epoch, seconds) => HistoryOps.HeartbeatEvolves(s, a, epoch, seconds, now);
    case Renew(supervised, seconds) => HistoryOps.RenewEvolves(s, supervised, seconds, now);
    case Checkpoint(a, epoch, capsule) => HistoryOps.CheckpointEvolves(s, a, epoch, capsule, now);
    case PromoteRetries => HistoryOps.PromoteRetryEvolves(s, now);
  }

  lemma PoolEvolves(s: Db, c: PoolCall, now: real)
    requires Inv(s) && ApplyPool(s, c, now).Ok?
    ensures Evolves(s, ApplyPool(s, c, now).value, now, None, None)
  {
    PoolKeeps(s, c, now);
    ReshapedEvolves(s, ApplyPool(s, c, now).value, now);
  }

  /** A retry resolution that commits pardons its task. */
  ghost function Pardon(s: Db, step: Step): Option<Id> {
    if Apply(s, step.call, step.now).Ok? then PardonedBy(s, step.call) else None
  }

  /** A resolution settles its escalation when it commits; a refused one settles nothing. */
  ghost function Settles(s: Db, step: Step): Option<Id> {
    if Apply(s, step.call, step.now).Ok? then SettledBy(step.call) else None
  }

  /** A committed pool or work call pardons no task and settles no escalation. */
  lemma PoolSettles(s: Db, step: Step)
    requires Inv(s) && step.call.Pool? && Apply(s, step.call, step.now).Ok?
    ensures Evolves(s, After(s, step), step.now, None, None) && Pardon(s, step) == Settles(s, step) == None
  {
    PoolEvolves(s, step.call.pool, step.now);
  }

  lemma WorkSettles(s: Db, step: Step)
    requires Inv(s) && step.call.Working? && Apply(s, step.call, step.now).Ok?
    ensures Evolves(s, After(s, step), step.now, None, None) && Pardon(s, step) == Settles(s, step) == None
  {
    WorkEvolves(s, step.call.work, step.now);
  }

  lemma SettlingSettles(s: Db, step: Step)
    requires Inv(s) && step.call.Settling? && Apply(s, step.call, step.now).Ok?
    ensures Evolves(s, After(s, step), step.now, Pardon(s, step), Settles(s, step))
  {
    SettleKeeps(s, step.call.settle, step.now);
  }

  lemma RolledBack(s: Db, step: Step)
    requires Apply(s, step.call, step.now).Err?
    ensures Evolves(s, After(s, step), step.now, Pardon(s, step), Settles(s, step))
  {
    EvolvesSelf(s, step.now, None, None);
  }

  /** A rolled-back call evolves nothing; a committed one only as stated. */
  lemma AfterEvolves(s: Db, step: Step)
    requires Inv(s)
    ensures Evolves(s, After(s, step), step.now, Pardon(s, step), Settles(s, step))
  {
    if Apply(s, step.call, step.now).Err? {
      RolledBack(s, step);
    } else if step.call.Pool? {
      PoolSettles(s, step);
    } else if step.call.Working? {
      WorkSettles(s, step);
    } else {
      SettlingSettles(s, step);
    }
  }
}
