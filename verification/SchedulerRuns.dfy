/** The Scheduler object carries out the state machine call for call. */
module SchedulerRuns {
  import opened Tables
  import opened Runs
  import opened SchedulerCore

  method PerformPool(core: Scheduler, c: PoolCall, now: real) returns (r: Outcome<()>)
    requires core.Valid()
    modifies core
    ensures core.Valid()
    ensures Committed(ApplyPool(old(core.db), c, now), r, old(core.db), core.db)
  {
    match c
    case Upsert(spec) => r := core.UpsertPartition(spec);
    case Resize(name, desired) => r := core.ResizePartition(name, desired);
    case Birth(id, home, workstream, tags) => r := core.BirthAgent(id, home, workstream, tags, now);
    case Move(g, to) => r := core.MoveAgent(g, to, now);
    case MoveMany(source, target, count) => r := core.MoveCapacity(source, target, count, now);
    case Merge(from, into) => r := core.MergePartitions(from, into, now);
    case Retire(name) => r := core.RetirePartition(name, now);
    case Reconcile(draw) => r := core.ReconcilePool(draw, now);
    case Ensure(draw) => r := core.EnsureTaskConsumers(draw, now);
    case Revive(g, on) => r := core.ReviveAgent(g, on, now);
    case MarkLost(i) => r := core.MarkIncarnationLost(i, now);
  }

  /** Calls that submit, claim and start. */
  predicate Opens(c: WorkCall) {
    c.Submit? || c.ClaimAny? || c.ClaimFor? || c.Create?
  }

  method PerformOpening(core: Scheduler, c: WorkCall, now: real) returns (r: Outcome<()>)
    requires core.Valid() && Opens(c)
    modifies core
    ensures core.Valid()
    ensures Committed(ApplyWork(old(core.db), c, now), r, old(core.db), core.db)
  {
    match c
    case Submit(batch, specs) => r := core.SubmitBatch(batch, specs, now);
    case ClaimAny(a, seconds) =>
      var pair := core.ClaimNextAvailable(a, seconds, now);
      r := if pair.Ok? then Ok(()) else Err(pair.error);
    case ClaimFor(g, a, seconds) =>
      var t := core.ClaimNext(g, a, seconds, now);
      r := if t.Ok? then Ok(()) else Err(t.error);
    case Create(a, epoch, target, isolated, x, i) => r := core.CreateExecution(a, epoch, target, isolated, x, i, now);
  }

  method PerformWork(core: Scheduler, c: WorkCall, now: real) returns (r: Outcome<()>)
    requires core.Valid()
    modifies core
    ensures core.Valid()
    ensures Committed(ApplyWork(old(core.db), c, now), r, old(core.db), core.db)
  {
    if Opens(c) {
      r := PerformOpening(core, c, now);
      return;
    }
    match c
    case Confirm(a, epoch, x, seconds) => r := core.ConfirmRunning(a, epoch, x, seconds, now);
    case Ambiguous(a, epoch, x) => r := core.RecordStartAmbiguity(a, epoch, x, now);
    case Observe(x, state, terminal, quiescent) => r := core.RecordPhysicalOutcome(x, state, terminal, quiescent);
    case Beat(a, epoch, seconds) => r := core.Heartbeat(a, epoch, seconds, now);
    case Renew(supervised, seconds) => core.RenewActiveLeases(supervised, seconds, now); r := Ok(());
    case Checkpoint(a, epoch, capsule) => r := core.PromoteCheckpoint(a, epoch, capsule, now);
    case PromoteRetries => core.PromoteRetryWait(now); r := Ok(());
  }

  method PerformSettle(core: Scheduler, c: SettleCall, now: real) returns (r: Outcome<()>)
    requires core.Valid()
    modifies core
    ensures core.Valid()
    ensures Committed(ApplySettle(old(core.db), c, now), r, old(core.db), core.db)
  {
    match c
    case Succeed(a, epoch, x, capsule, quiescent, reusable, drawn) => r := core.AckSuccess(a, epoch, x, capsule,
      quiescent, reusable, drawn, now);
    case Fail(a, epoch, x, report, drawn, at) => r := core.Nack(a, epoch, x, report, drawn, at, now);
    case Expire(unstarted, draw) => r := core.ExpireLeases(unstarted, draw, now);
    case CancelOne(t, confirmed, drawn) => r := core.CancelTask(t, confirmed, drawn, now);
    case CancelAll(b, draw) => r := core.CancelBatch(b, draw, now);
    case Resolve(k, how, vouched, notice) => r := core.ResolveEscalation(k, how, vouched, notice, now);
    case AckRow(result) => r := core.AckResult(result);
  }

  /** One call on the object is one step of the machine. */
  method Perform(core: Scheduler, step: Step) returns (r: Outcome<()>)
    requires core.Valid()
    modifies core
    ensures core.Valid()
    ensures core.db == After(old(core.db), step)
    ensures r.Ok? <==> Apply(old(core.db), step.call, step.now).Ok?
  {
    match step.call
    case Pool(p) => r := PerformPool(core, p, step.now);
    case Working(w) => r := PerformWork(core, w, step.now);
    case Settling(e) => r := PerformSettle(core, e, step.now);
  }

  /** Any sequence of calls on a new Scheduler ends in the state of the run, where the
      invariant holds. */
  method PerformAll(steps: seq<Step>) returns (core: Scheduler)
    ensures core.db == Run(EMPTY, steps) && core.Valid()
  {
    core := new Scheduler();
    for i := 0 to |steps|
      invariant core.db == Run(EMPTY, steps[..i])
      invariant fresh(core) && core.Valid()
    {
      assert steps[..i + 1][..i] == steps[..i];
      var _ := Perform(core, steps[i]);
    }
    assert steps[..|steps|] == steps;
  }
}
