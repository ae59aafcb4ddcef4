/** Submitting, claiming, running and settling leave the partitions alone. */
module Ground {
  import opened Options
  import opened RowOrder
  import opened Tables
  import opened Topology
  import opened Work
  import opened CancelOps
  import SettleOps

  ghost predicate Grounded(s: Db, s': Db) {
    s'.partitions == s.partitions
  }

  lemma EnterGround(s: Db, b: Id, next: BatchState, notice: Id)
    requires b in s.batches && EnterState(s, b, next, notice).Ok?
    ensures Grounded(s, EnterState(s, b, next, notice).value)
  {
  }

  lemma RecomputeGround(s: Db, b: Id, notice: Id)
    requires RecomputeBatch(s, b, notice).Ok?
    ensures Grounded(s, RecomputeBatch(s, b, notice).value)
  {
    if !s.batches[b].Cancelled? {
      EnterGround(s, b, BatchNext(s.tasks, b), notice);
    }
  }

  // ---------------------------------------------------------------- settling one attempt

  lemma EscalateGround(s: Db, t: Id, g: Id, b: Id, cause: FailureClass, drawn: Drawn)
    requires Escalate(s, t, g, b, cause, drawn).Ok?
    ensures Grounded(s, Escalate(s, t, g, b, cause, drawn).value)
  {
    var s1 := CreateEscalation(s, t, g, cause, drawn).value;
    assert Grounded(s, s1);
    RecomputeGround(s1, b, drawn.notice);
  }

  lemma SuspendGround(s: Db, a: Id, attempt: AttemptState, lease: LeaseState, cause: FailureClass, drawn: Drawn,
                      now: real)
    requires a in s.attempts && s.attempts[a].task in s.tasks
    requires CloseSuspended(s, a, attempt, lease, cause, drawn, now).Ok?
    ensures Grounded(s, CloseSuspended(s, a, attempt, lease, cause, drawn, now).value)
  {
    var t := s.attempts[a].task;
    var rows := ClosedRows(s, a, attempt, lease, TaskState.Suspended, s.tasks[t].nextEligible);
    if !cause.WriterQuiescenceUnknown? {
      ReleaseKeeps(rows, s.attempts[a].agent, now);
    }
    var s2 := SuspendedRows(s, a, attempt, lease, cause, now).value;
    assert Grounded(s, rows) && Grounded(rows, s2);
    EscalateGround(s2, t, s.attempts[a].agent, s.tasks[t].batch, cause, drawn);
  }

  lemma RetryGround(s: Db, a: Id, attempt: AttemptState, lease: LeaseState, eligible: real, now: real)
    requires a in s.attempts && CloseRetry(s, a, attempt, lease, eligible, now).Ok?
    ensures Grounded(s, CloseRetry(s, a, attempt, lease, eligible, now).value)
  {
    ReleaseKeeps(ClosedRows(s, a, attempt, lease, TaskState.RetryWait, Some(eligible)), s.attempts[a].agent, now);
  }

  lemma SettleGround(s: Db, a: Id, attempt: AttemptState, onRetry: LeaseState, onStop: LeaseState, verdict: Verdict,
                     drawn: Drawn, now: real)
    requires a in s.attempts && s.attempts[a].task in s.tasks
    requires Settle(s, a, attempt, onRetry, onStop, verdict, drawn, now).Ok?
    ensures Grounded(s, Settle(s, a, attempt, onRetry, onStop, verdict, drawn, now).value)
  {
    match verdict
    case RetryAt(eligible) => RetryGround(s, a, attempt, onRetry, eligible, now);
    case Stop(cause) => SuspendGround(s, a, attempt, onStop, cause, drawn, now);
  }

  lemma NackGround(s: Db, a: Id, epoch: nat, supplied: Option<Id>, report: Report, drawn: Drawn, at: real, now: real)
    requires Nack(s, a, epoch, supplied, report, drawn, at, now).Ok?
    ensures Grounded(s, Nack(s, a, epoch, supplied, report, drawn, at, now).value)
  {
    SettleOps.NackSettles(s, a, epoch, supplied, report, drawn, at, now);
    var x, t := ExecutionFor(s, a, supplied).value, s.attempts[a].task;
    var rows := FailedRows(s, a, x, report);
    assert Grounded(s, rows);
    SettleGround(rows, a, AttemptState.Failed, LeaseState.Released, LeaseState.Revoked,
                 Judge(s.tasks[t], report.cause, s.attempts[a].number, WriterSafe(s, t, x, report.quiescent), at),
                 drawn, at);
  }

  lemma FinishGround(s: Db, g: Id, b: Id, notice: Id, now: real)
    requires FinishTask(s, g, b, notice, now).Ok?
    ensures Grounded(s, FinishTask(s, g, b, notice, now).value)
  {
    ReleaseKeeps(s, g, now);
    var s1 := ReleaseAgent(s, g, now).value;
    RecomputeGround(s1.(tasks := ReleaseDependencies(s1.tasks, b)), b, notice);
  }

  lemma CompletedGround(s: Db, a: Id, x: Option<Id>, capsule: Capsule, quiescent: bool, reusable: bool, drawn: Drawn,
                        now: real)
    requires a in s.attempts && s.attempts[a].task in s.tasks
    requires AckCompleted(s, a, x, capsule, quiescent, reusable, drawn, now).Ok?
    ensures Grounded(s, AckCompleted(s, a, x, capsule, quiescent, reusable, drawn, now).value)
  {
    var g, b := s.attempts[a].agent, s.tasks[s.attempts[a].task].batch;
    var s1 := s.(agents := PromotedAgents(s.agents, g, capsule).value);
    var rows := CompletedRows(FinishedRows(s1, a, x, quiescent, reusable), a, drawn.result);
    assert Grounded(s, rows);
    FinishGround(rows, g, b, drawn.notice, now);
  }

  lemma AckGround(s: Db, a: Id, epoch: nat, supplied: Option<Id>, capsule: Capsule, quiescent: bool, reusable: bool,
                  drawn: Drawn, now: real)
    requires AckSuccess(s, a, epoch, supplied, capsule, quiescent, reusable, drawn, now).Ok?
    ensures Grounded(s, AckSuccess(s, a, epoch, supplied, capsule, quiescent, reusable, drawn, now).value)
  {
    SettleOps.AckCases(s, a, epoch, supplied, capsule, quiescent, reusable, drawn, now);
    var x := ExecutionFor(s, a, supplied).value;
    if WriterSafe(s, s.attempts[a].task, x, quiescent) {
      CompletedGround(s, a, x, capsule, quiescent, reusable, drawn, now);
    } else {
      var rows := FinishedRows(s, a, x, false, false);
      assert Grounded(s, rows);
      SuspendGround(rows, a, AttemptState.Failed, LeaseState.Revoked, WriterQuiescenceUnknown, drawn, now);
    }
  }

  lemma ExpireOneGround(s: Db, a: Id, drawn: Drawn, now: real)
    requires a in s.attempts && s.attempts[a].task in s.tasks && ExpireOne(s, a, drawn, now).Ok?
    ensures Grounded(s, ExpireOne(s, a, drawn, now).value)
  {
    assert Grounded(s, ExpiredRows(s, a));
    SettleGround(ExpiredRows(s, a), a, AttemptState.Expired, LeaseState.Expired, LeaseState.Expired,
                 Judge(s.tasks[s.attempts[a].task], ExecutionLost, s.attempts[a].number, ExpiresSafely(s, a), now),
                 drawn, now);
  }

  lemma {:induction false} ExpireGround(s: Db, list: seq<Id>, k: nat, draw: nat -> Drawn, now: real)
    requires ExpireEach(s, list, k, draw, now).Ok?
    ensures Grounded(s, ExpireEach(s, list, k, draw, now).value)
    decreases |list|
  {
    if list != [] {
      if list[0] !in s.attempts || s.attempts[list[0]].task !in s.tasks {
        ExpireGround(s, list[1..], k + 1, draw, now);
      } else {
        ExpireOneGround(s, list[0], draw(k), now);
        ExpireGround(ExpireOne(s, list[0], draw(k), now).value, list[1..], k + 1, draw, now);
      }
    }
  }

  // ---------------------------------------------------------------- cancelling and resolving

  lemma CancelTaskGround(s: Db, t: Id, confirmed: bool, drawn: Drawn, now: real)
    requires CancelTask(s, t, confirmed, drawn, now).Ok?
    ensures Grounded(s, CancelTask(s, t, confirmed, drawn, now).value)
  {
    if !s.tasks[t].Terminal() {
      var current := s.tasks[t].current;
      if current.Some? {
        CancelKeeps(s, current.value, confirmed, drawn, now);
      }
      var s1 := if current.None? then s else CancelAttempt(s, current.value, confirmed, drawn, now).value;
      RecomputeGround(SetTask(s1, t, TaskState.Cancelled, s.tasks[t].nextEligible), s.tasks[t].batch, drawn.notice);
    }
  }

  lemma {:induction false} CancelGround(s: Db, list: seq<Id>, k: nat, draw: nat -> Drawn, now: real)
    requires CancelEach(s, list, k, draw, now).Ok?
    ensures Grounded(s, CancelEach(s, list, k, draw, now).value)
    decreases |list|
  {
    if list != [] {
      CancelKeeps(s, list[0], false, draw(k), now);
      CancelGround(CancelAttempt(s, list[0], false, draw(k), now).value, list[1..], k + 1, draw, now);
    }
  }

  lemma CancelBatchGround(s: Db, b: Id, draw: nat -> Drawn, now: real)
    requires CancelBatch(s, b, draw, now).Ok?
    ensures Grounded(s, CancelBatch(s, b, draw, now).value)
  {
    if !s.batches[b].Cancelled? {
      var active := set a | a in s.attempts && ActiveIn(s, a, b);
      CancelGround(s.(escalations := CancelOthers(s.escalations, b)), ById(active), 0, draw, now);
    }
  }

  lemma ReleaseWriterGround(s: Db, e: Escalation, confirmed: bool, now: real)
    requires ReleaseWriter(s, e, confirmed, now).Ok?
    ensures Grounded(s, ReleaseWriter(s, e, confirmed, now).value)
  {
    var s0 := FinalizeWriter(s, e.task, confirmed);
    assert Grounded(s, s0);
    if !s0.agents[e.agent].state.Retired? {
      ReleaseKeeps(s0, e.agent, now);
    }
  }

  lemma RetryTaskGround(s: Db, k: Id, confirmed: bool, notice: Id, now: real)
    requires k in s.escalations && s.escalations[k].task in s.tasks && RetryTask(s, k, confirmed, notice, now).Ok?
    ensures Grounded(s, RetryTask(s, k, confirmed, notice, now).value)
  {
    var e := s.escalations[k];
    var s1 := Requeue(s, e.task);
    if e.cause.WriterQuiescenceUnknown? {
      ReleaseWriterGround(s1, e, confirmed, now);
    }
    var s2 := if e.cause.WriterQuiescenceUnknown? then ReleaseWriter(s1, e, confirmed, now).value else s1;
    RecomputeGround(CloseEscalation(s2, k), s.tasks[e.task].batch, notice);
  }

  lemma ReleaseCancelledGround(s: Db, k: Id, confirmed: bool, notice: Id, now: real)
    requires k in s.escalations && s.escalations[k].task in s.tasks
    requires ReleaseCancelled(s, k, confirmed, notice, now).Ok?
    ensures Grounded(s, ReleaseCancelled(s, k, confirmed, notice, now).value)
  {
    var e := s.escalations[k];
    ReleaseWriterGround(s, e, confirmed, now);
    RecomputeGround(CloseEscalation(ReleaseWriter(s, e, confirmed, now).value, k), s.tasks[e.task].batch, notice);
  }

  lemma DismissGround(s: Db, k: Id, notice: Id)
    requires k in s.escalations && s.escalations[k].task in s.tasks && CancelEscalated(s, k, notice).Ok?
    ensures Grounded(s, CancelEscalated(s, k, notice).value)
  {
    var e := s.escalations[k];
    var s1 := s.(tasks := s.tasks[e.task := s.tasks[e.task].(state := TaskState.Cancelled)]);
    RecomputeGround(if e.cause.WriterQuiescenceUnknown? then s1 else CloseEscalation(s1, k), s.tasks[e.task].batch,
                    notice);
  }

  lemma ResolveGround(s: Db, k: Id, how: Resolution, confirmed: bool, notice: Id, now: real)
    requires ResolveEscalation(s, k, how, confirmed, notice, now).Ok?
    ensures Grounded(s, ResolveEscalation(s, k, how, confirmed, notice, now).value)
  {
    match how
    case ReleaseCancelledWriter => ReleaseCancelledGround(s, k, confirmed, notice, now);
    case Retry => RetryTaskGround(s, k, confirmed, notice, now);
    case CancelIt => DismissGround(s, k, notice);
  }

  // ---------------------------------------------------------------- claiming and submitting

  lemma ClaimGround(s: Db, a: Id, seconds: real, now: real)
    requires ClaimNextAvailable(s, a, seconds, now).Ok?
    ensures Grounded(s, ClaimNextAvailable(s, a, seconds, now).value.0)
  {
  }

  lemma ClaimNextGround(s: Db, g: Id, a: Id, seconds: real, now: real)
    requires ClaimNext(s, g, a, seconds, now).Ok?
    ensures Grounded(s, ClaimNext(s, g, a, seconds, now).value.0)
  {
  }

  lemma SubmitGround(s: Db, batch: Id, specs: seq<TaskSpec>, now: real)
    requires SubmitBatch(s, batch, specs, now).Ok?
    ensures Grounded(s, SubmitBatch(s, batch, specs, now).value)
  {
  }

  lemma CreateGround(s: Db, a: Id, epoch: nat, target: Id, isolated: bool, x: Id, drawn: Id, now: real)
    requires CreateExecution(s, a, epoch, target, isolated, x, drawn, now).Ok?
    ensures Grounded(s, CreateExecution(s, a, epoch, target, isolated, x, drawn, now).value)
  {
  }
}
