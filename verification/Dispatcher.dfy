/** The dispatcher drives the Scheduler with whatever its adapters answer. */
module Dispatch {
  import opened Options
  import opened RowOrder
  import opened Tables
  import W = Work
  import ClaimOps
  import ClaimChoice
  import CancelOps
  import Closing
  import SettleOps
  import ExecutionOps
  import opened SchedulerCore

  /** What starting an execution came to. */
  datatype Answer =
    | Unavailable                      // no adapter, target or profile
    | Started
    | Ambiguous
    | Refused(state: ExecutionState, cause: FailureClass)

  /** Everything one turn of the loop reads from outside: the clock at the claim and after the
      start, drawn ids and the adapter. */
  datatype Turn = Turn(now: real, later: real, attempt: Id, execution: Id, incarnation: Id, isolated: bool,
                       drawn: W.Drawn, answer: Answer)

  function Queue(tasks: map<Id, Task>): set<Id> {
    set t | t in tasks && tasks[t].state.Queued?
  }

  // ---------------------------------------------------------------- what the calls do to the queue

  /** At most one task row changed, and it did not enter the queue. */
  ghost predicate OneLeft(tasks: map<Id, Task>, tasks': map<Id, Task>, t: Id) {
    t in tasks && t in tasks' && tasks' == tasks[t := tasks'[t]] && !tasks'[t].state.Queued?
  }

  lemma OneLeftShrinks(tasks: map<Id, Task>, tasks': map<Id, Task>, t: Id)
    requires OneLeft(tasks, tasks', t)
    ensures Queue(tasks') == Queue(tasks) - {t}
  {
  }

  /** Executions are never deleted and never change hands. */
  ghost predicate RowsStay(executions: map<Id, Execution>, executions': map<Id, Execution>) {
    forall x | x in executions :: x in executions' && executions'[x].attempt == executions[x].attempt
  }

  lemma ClaimLeaves(s: Db, a: Id, leaseSeconds: real, now: real, t: Id, g: Id)
    requires W.ClaimNextAvailable(s, a, leaseSeconds, now).Ok?
      && W.ClaimNextAvailable(s, a, leaseSeconds, now).value.1 == Some((t, g))
    ensures var s' := W.ClaimNextAvailable(s, a, leaseSeconds, now).value.0;
      t in s.tasks && s.tasks[t].state.Queued? && OneLeft(s.tasks, s'.tasks, t) && s'.executions == s.executions
      && a !in s.attempts && s'.attempts.Keys == s.attempts.Keys + {a}
  {
    ClaimOps.NextAvailableJoins(s, a, leaseSeconds, now, t, g);
  }

  lemma EscalateKeeps(s: Db, t: Id, g: Id, b: Id, cause: FailureClass, drawn: W.Drawn)
    requires W.Escalate(s, t, g, b, cause, drawn).Ok?
    ensures var s' := W.Escalate(s, t, g, b, cause, drawn).value;
      s'.tasks == s.tasks && s'.executions == s.executions && s'.attempts == s.attempts
  {
    var s1 := W.CreateEscalation(s, t, g, cause, drawn).value;
    assert s1.tasks == s.tasks && s1.attempts == s.attempts && s1.executions == s.executions;
    Closing.RecomputeKeeps(s1, b, drawn.notice);
  }

  lemma SuspendLeaves(s: Db, a: Id, attempt: AttemptState, lease: LeaseState, cause: FailureClass, drawn: W.Drawn,
                      now: real)
    requires a in s.attempts && s.attempts[a].task in s.tasks
      && W.CloseSuspended(s, a, attempt, lease, cause, drawn, now).Ok?
    ensures var s' := W.CloseSuspended(s, a, attempt, lease, cause, drawn, now).value;
      OneLeft(s.tasks, s'.tasks, s.attempts[a].task) && s'.executions == s.executions
      && s'.attempts.Keys == s.attempts.Keys
  {
    var t := s.attempts[a].task;
    var rows := W.ClosedRows(s, a, attempt, lease, TaskState.Suspended, s.tasks[t].nextEligible);
    if !cause.WriterQuiescenceUnknown? {
      CancelOps.ReleaseKeeps(rows, s.attempts[a].agent, now);
    }
    var s2 := W.SuspendedRows(s, a, attempt, lease, cause, now).value;
    assert s2.tasks == rows.tasks && s2.attempts == rows.attempts && s2.executions == s.executions;
    EscalateKeeps(s2, t, s.attempts[a].agent, s.tasks[t].batch, cause, drawn);
  }

  lemma RetryLeaves(s: Db, a: Id, attempt: AttemptState, lease: LeaseState, eligible: real, now: real)
    requires a in s.attempts && s.attempts[a].task in s.tasks && W.CloseRetry(s, a, attempt, lease, eligible, now).Ok?
    ensures var s' := W.CloseRetry(s, a, attempt, lease, eligible, now).value;
      OneLeft(s.tasks, s'.tasks, s.attempts[a].task) && s'.executions == s.executions
      && s'.attempts.Keys == s.attempts.Keys
  {
    CancelOps.ReleaseKeeps(W.ClosedRows(s, a, attempt, lease, TaskState.RetryWait, Some(eligible)),
                           s.attempts[a].agent, now);
  }

  lemma SettleLeaves(s: Db, a: Id, attempt: AttemptState, onRetry: LeaseState, onStop: LeaseState, verdict: W.Verdict,
                     drawn: W.Drawn, now: real)
    requires a in s.attempts && s.attempts[a].task in s.tasks
      && W.Settle(s, a, attempt, onRetry, onStop, verdict, drawn, now).Ok?
    ensures var s' := W.Settle(s, a, attempt, onRetry, onStop, verdict, drawn, now).value;
      OneLeft(s.tasks, s'.tasks, s.attempts[a].task) && s'.executions == s.executions
      && s'.attempts.Keys == s.attempts.Keys
  {
    match verdict
    case RetryAt(eligible) => RetryLeaves(s, a, attempt, onRetry, eligible, now);
    case Stop(cause) => SuspendLeaves(s, a, attempt, onStop, cause, drawn, now);
  }

  lemma FailedKeeps(s: Db, a: Id, x: Option<Id>, report: W.Report)
    requires a in s.attempts
    ensures var s' := W.FailedRows(s, a, x, report);
      s'.tasks == s.tasks && s'.attempts == s.attempts && RowsStay(s.executions, s'.executions)
  {
  }

  lemma NackLeaves(s: Db, a: Id, epoch: nat, supplied: Option<Id>, report: W.Report, drawn: W.Drawn, at: real,
                   now: real)
    requires W.Nack(s, a, epoch, supplied, report, drawn, at, now).Ok?
    ensures var s' := W.Nack(s, a, epoch, supplied, report, drawn, at, now).value;
      a in s.attempts && OneLeft(s.tasks, s'.tasks, s.attempts[a].task) && RowsStay(s.executions, s'.executions)
      && s'.attempts.Keys == s.attempts.Keys
  {
    SettleOps.NackSettles(s, a, epoch, supplied, report, drawn, at, now);
    var x := W.ExecutionFor(s, a, supplied).value;
    FailedKeeps(s, a, x, report);
    var t := s.attempts[a].task;
    SettleLeaves(W.FailedRows(s, a, x, report), a, AttemptState.Failed, LeaseState.Released, LeaseState.Revoked,
                 W.Judge(s.tasks[t], report.cause, s.attempts[a].number, W.WriterSafe(s, t, x, report.quiescent), at),
                   drawn, at);
  }

  lemma CreateKeeps(s: Db, a: Id, epoch: nat, target: Id, isolated: bool, x: Id, drawn: Id, now: real)
    requires W.CreateExecution(s, a, epoch, target, isolated, x, drawn, now).Ok?
    ensures var s' := W.CreateExecution(s, a, epoch, target, isolated, x, drawn, now).value;
      && s'.tasks == s.tasks && x !in s.executions && x in s'.executions && s'.executions[x].attempt == a
      && RowsStay(s.executions, s'.executions)
      && s'.attempts.Keys == s.attempts.Keys
  {
    ExecutionOps.CreateValue(s, a, epoch, target, isolated, x, drawn, now);
  }

  lemma ConfirmLeaves(s: Db, a: Id, epoch: nat, x: Id, leaseSeconds: real, now: real)
    requires W.ConfirmRunning(s, a, epoch, x, leaseSeconds, now).Ok?
    ensures a in s.attempts
      && OneLeft(s.tasks, W.ConfirmRunning(s, a, epoch, x, leaseSeconds, now).value.tasks, s.attempts[a].task)
    ensures var s' := W.ConfirmRunning(s, a, epoch, x, leaseSeconds, now).value;
      && x in s'.executions && s'.executions[x].attempt == a && s'.executions[x].state.Running?
      && RowsStay(s.executions, s'.executions)
      && s'.attempts.Keys == s.attempts.Keys
  {
  }

  lemma AmbiguityKeeps(s: Db, a: Id, epoch: nat, x: Id, now: real)
    requires W.RecordStartAmbiguity(s, a, epoch, x, now).Ok?
    ensures var s' := W.RecordStartAmbiguity(s, a, epoch, x, now).value;
      s'.tasks == s.tasks && RowsStay(s.executions, s'.executions)
      && s'.attempts.Keys == s.attempts.Keys
  {
  }

  lemma ObserveKeeps(s: Db, x: Id, state: ExecutionState, terminal: bool, quiescent: bool)
    requires W.RecordPhysicalOutcome(s, x, state, terminal, quiescent).Ok?
    ensures var s' := W.RecordPhysicalOutcome(s, x, state, terminal, quiescent).value;
      s'.tasks == s.tasks && RowsStay(s.executions, s'.executions)
      && s'.attempts.Keys == s.attempts.Keys
  {
  }

  // ---------------------------------------------------------------- the dispatcher

  /** The queue did not grow and no execution was lost. */
  ghost predicate Calm(before: Db, after: Db) {
    Queue(after.tasks) <= Queue(before.tasks) && RowsStay(before.executions, after.executions)
  }

  function DrawnAttempts(turns: nat -> Turn, n: nat): set<Id> {
    if n == 0 then {} else DrawnAttempts(turns, n - 1) + {turns(n - 1).attempt}
  }

  /** The attempts opened are those of the first `n` turns, one each. */
  ghost predicate Claimed(before: set<Id>, after: set<Id>, turns: nat -> Turn, n: nat) {
    after == before + DrawnAttempts(turns, n) && |after| == |before| + n
  }

  lemma ClaimsOne(before: set<Id>, after: set<Id>, turns: nat -> Turn, n: nat)
    requires Claimed(before, after, turns, n) && turns(n).attempt !in after
    ensures Claimed(before, after + {turns(n).attempt}, turns, n + 1)
  {
  }

  /** `n` executions were admitted and none was dropped. */
  ghost predicate Admitted(before: map<Id, Id>, after: map<Id, Id>, n: nat) {
    && (forall x | x in before :: x in after && after[x] == before[x])
    && |after.Keys| == |before.Keys| + n
  }

  lemma AdmitsOne(before: map<Id, Id>, x: Id, a: Id)
    requires x !in before
    ensures Admitted(before, before[x := a], 1)
  {
    assert before[x := a].Keys == before.Keys + {x};
  }

  lemma AdmittedTrans(before: map<Id, Id>, between: map<Id, Id>, after: map<Id, Id>, m: nat, n: nat)
    requires Admitted(before, between, m) && Admitted(between, after, n)
    ensures Admitted(before, after, m + n)
  {
  }

  class Dispatcher {
    const scheduler: Scheduler
    var admissions: map<Id, Id>        // execution to attempt, positively observed RUNNING

    /** Every admission names an execution of the attempt it was admitted for. */
    ghost predicate Sound()
      reads this, scheduler
    {
      forall x | x in admissions :: x in scheduler.db.executions && scheduler.db.executions[x].attempt == admissions[x]
    }

    constructor (core: Scheduler)
      ensures scheduler == core && admissions == map[] && Sound()
    {
      scheduler, admissions := core, map[];
    }

    method Admit(x: Id, a: Id)
      requires Sound() && x in scheduler.db.executions && scheduler.db.executions[x].attempt == a
      modifies this
      ensures Sound() && admissions == old(admissions)[x := a]
    {
      admissions := admissions[x := a];
    }

    method Revoke(x: Id)
      requires Sound()
      modifies this
      ensures Sound() && admissions == old(admissions) - {x}
    {
      admissions := admissions - {x};
    }

    /** Until something is admitted again a renewal touches no lease. */
    method ClearAdmissions()
      modifies this
      ensures admissions == map[] && Sound()
      ensures forall seconds: real, now: real ::
        W.RenewActiveLeases(scheduler.db, admissions.Values, seconds, now) == scheduler.db
    {
      admissions := map[];
      forall seconds: real, now: real
        ensures W.RenewActiveLeases(scheduler.db, admissions.Values, seconds, now) == scheduler.db {
        assert W.RenewActiveLeases(scheduler.db, admissions.Values, seconds, now).leases == scheduler.db.leases;
      }
    }

    method SupervisedAttempts() returns (attempts: set<Id>)
      ensures attempts == admissions.Values
    {
      attempts := admissions.Values;
    }

    /** Only leases of admitted attempts are renewed. */
    method RenewSupervised(leaseSeconds: real, now: real)
      requires scheduler.Valid() && Sound()
      modifies scheduler
      ensures scheduler.db == W.RenewActiveLeases(old(scheduler.db), admissions.Values, leaseSeconds, now)
      ensures scheduler.Valid() && Sound()
    {
      var supervised := SupervisedAttempts();
      scheduler.RenewActiveLeases(supervised, leaseSeconds, now);
    }

    /** Physical history is kept even when authority is gone. */
    method RecordStart(x: Id, state: ExecutionState, confirmed: bool) returns (r: Outcome<()>)
      requires scheduler.Valid() && Sound()
      modifies this, scheduler
      ensures scheduler.Valid() && Sound() && Calm(old(scheduler.db), scheduler.db)
      ensures scheduler.db.attempts.Keys == old(scheduler.db.attempts.Keys)
      ensures admissions == old(admissions) - {x}
    {
      Revoke(x);
      r := scheduler.RecordPhysicalOutcome(x, state, confirmed, confirmed);
      if r.Ok? {
        ObserveKeeps(old(scheduler.db), x, state, confirmed, confirmed);
      }
    }

    method ConfirmStart(a: Id, epoch: nat, x: Id, leaseSeconds: real, now: real) returns (r: Outcome<nat>)
      requires scheduler.Valid() && Sound()
      modifies this, scheduler
      ensures scheduler.Valid() && Sound() && Calm(old(scheduler.db), scheduler.db)
      ensures scheduler.db.attempts.Keys == old(scheduler.db.attempts.Keys)
      ensures r.Ok? && r.value == 1 ==>
        admissions == old(admissions)[x := a] && scheduler.db.executions[x].state.Running?
      ensures r.Ok? && r.value != 1 ==> r.value == 0 && admissions == old(admissions) - {x}
    {
      var confirmed := scheduler.ConfirmRunning(a, epoch, x, leaseSeconds, now);
      if confirmed.Ok? {
        ConfirmLeaves(old(scheduler.db), a, epoch, x, leaseSeconds, now);
        OneLeftShrinks(old(scheduler.db.tasks), scheduler.db.tasks, old(scheduler.db.attempts[a].task));
        Admit(x, a);
        return Ok(1);
      }
      if confirmed.error != StaleAuthority {
        return Err(confirmed.error);
      }
      var _ :- RecordStart(x, ExecutionState.Running, false);
      return Ok(0);
    }

    method AmbiguousStart(a: Id, epoch: nat, x: Id, now: real) returns (r: Outcome<nat>)
      requires scheduler.Valid() && Sound()
      modifies this, scheduler
      ensures scheduler.Valid() && Sound() && Calm(old(scheduler.db), scheduler.db)
      ensures scheduler.db.attempts.Keys == old(scheduler.db.attempts.Keys)
      ensures r.Ok? ==> r.value == 0 && (admissions == old(admissions) || admissions == old(admissions) - {x})
    {
      var recorded := scheduler.RecordStartAmbiguity(a, epoch, x, now);
      if recorded.Ok? {
        AmbiguityKeeps(old(scheduler.db), a, epoch, x, now);
        return Ok(0);
      }
      if recorded.error != StaleAuthority {
        return Err(recorded.error);
      }
      var _ :- RecordStart(x, ExecutionState.Unknown, false);
      return Ok(0);
    }

    method RefuseStart(a: Id, epoch: nat, x: Option<Id>, report: W.Report, drawn: W.Drawn, now: real)
      returns (r: Outcome<()>)
      requires scheduler.Valid() && Sound()
      modifies scheduler
      ensures scheduler.Valid() && Sound() && Calm(old(scheduler.db), scheduler.db)
      ensures scheduler.db.attempts.Keys == old(scheduler.db.attempts.Keys)
    {
      r := scheduler.Nack(a, epoch, x, report, drawn, now, now);
      if r.Ok? {
        NackLeaves(old(scheduler.db), a, epoch, x, report, drawn, now, now);
        OneLeftShrinks(old(scheduler.db.tasks), scheduler.db.tasks, old(scheduler.db.attempts[a].task));
      }
    }

    method FailedStart(a: Id, epoch: nat, x: Id, state: ExecutionState, cause: FailureClass, drawn: W.Drawn,
                       now: real) returns (r: Outcome<nat>)
      requires scheduler.Valid() && Sound()
      modifies this, scheduler
      ensures scheduler.Valid() && Sound() && Calm(old(scheduler.db), scheduler.db)
      ensures scheduler.db.attempts.Keys == old(scheduler.db.attempts.Keys)
      ensures r.Ok? ==> r.value == 0 && (admissions == old(admissions) || admissions == old(admissions) - {x})
    {
      var nacked := RefuseStart(a, epoch, Some(x), W.Report(cause, true, true, false), drawn, now);
      if nacked.Ok? {
        return Ok(0);
      }
      if nacked.error != StaleAuthority {
        return Err(nacked.error);
      }
      var seen := if state.Failed? || state.Lost? || state.Terminated? then state else ExecutionState.Failed;
      var recorded := RecordStart(x, seen, true);
      if recorded.Err? {
        return Err(recorded.error);
      }
      return Ok(0);
    }

    method StartClaim(a: Id, epoch: nat, x: Id, turn: Turn, leaseSeconds: real) returns (r: Outcome<nat>)
      requires scheduler.Valid() && Sound() && !turn.answer.Unavailable? && x !in admissions
      modifies this, scheduler
      ensures scheduler.Valid() && Sound() && Calm(old(scheduler.db), scheduler.db)
      ensures scheduler.db.attempts.Keys == old(scheduler.db.attempts.Keys)
      ensures r.Ok? ==> Admitted(old(admissions), admissions, r.value)
    {
      AdmitsOne(admissions, x, a);
      assert admissions - {x} == admissions;
      match turn.answer
      case Started => r := ConfirmStart(a, epoch, x, leaseSeconds, turn.later);
      case Ambiguous => r := AmbiguousStart(a, epoch, x, turn.later);
      case Refused(state, cause) => r := FailedStart(a, epoch, x, state, cause, turn.drawn, turn.later);
    }

    /** What becomes of one claim; how many executions it put to work. */
    method DispatchClaim(t: Id, turn: Turn, leaseSeconds: real) returns (r: Outcome<nat>)
      requires scheduler.Valid() && Sound() && t in scheduler.db.tasks
      modifies this, scheduler
      ensures scheduler.Valid() && Sound() && Calm(old(scheduler.db), scheduler.db)
      ensures scheduler.db.attempts.Keys == old(scheduler.db.attempts.Keys)
      ensures r.Ok? ==> Admitted(old(admissions), admissions, r.value)
    {
      var a, epoch := turn.attempt, scheduler.db.tasks[t].epoch;
      var home := scheduler.db.tasks[t].partition;
      if turn.answer.Unavailable? || home !in scheduler.db.partitions {
        var _ :- RefuseStart(a, epoch, None, W.Report(ResourceUnavailable, true, true, false), turn.drawn, turn.later);
        return Ok(0);
      }
      var target := scheduler.db.partitions[home].target;
      var created := scheduler.CreateExecution(a, epoch, target, turn.isolated, turn.execution, turn.incarnation,
                                               turn.later);
      if created.Err? {
        return Err(created.error);
      }
      CreateKeeps(old(scheduler.db), a, epoch, target, turn.isolated, turn.execution, turn.incarnation, turn.later);
      r := StartClaim(a, epoch, turn.execution, turn, leaseSeconds);
    }

    /** One turn: whether it claimed a pair, and how many executions it put to work. */
    method TakeTurn(turn: Turn, leaseSeconds: real) returns (claimed: bool, r: Outcome<nat>)
      requires scheduler.Valid() && Sound()
      modifies this, scheduler
      ensures scheduler.Valid() && Sound() && Calm(old(scheduler.db), scheduler.db)
      ensures r.Ok? ==> Admitted(old(admissions), admissions, r.value)
      ensures !claimed ==> scheduler.db.attempts.Keys == old(scheduler.db.attempts.Keys)
      ensures !claimed && r.Ok? ==> forall t: Id, g: Id :: !ClaimChoice.Compatible(scheduler.db, t, g, turn.now)
      ensures claimed ==>
        && turn.attempt !in old(scheduler.db.attempts.Keys)
        && scheduler.db.attempts.Keys == old(scheduler.db.attempts.Keys) + {turn.attempt}
        && |Queue(scheduler.db.tasks)| < |Queue(old(scheduler.db.tasks))|
    {
      ghost var before := scheduler.db;
      var claim := scheduler.ClaimNextAvailable(turn.attempt, leaseSeconds, turn.now);
      if claim.Err? {
        return false, Err(claim.error);
      }
      if claim.value.None? {
        ClaimChoice.NextAvailableOptimal(before, turn.attempt, leaseSeconds, turn.now);
        return false, Ok(0);
      }
      var (t, g) := claim.value.value;
      ClaimLeaves(before, turn.attempt, leaseSeconds, turn.now, t, g);
      OneLeftShrinks(before.tasks, scheduler.db.tasks, t);
      assert t in Queue(before.tasks);
      ghost var between := scheduler.db;
      r := DispatchClaim(t, turn, leaseSeconds);
      SmallerQueue(Queue(before.tasks), Queue(between.tasks), Queue(scheduler.db.tasks), t);
      claimed := true;
    }

    /** The loop of `dispatch_ready` ends for every sequence of adapter answers: each turn
        takes one task out of the queue and nothing in it puts one back.  When it ends
        without an error no compatible pair is left, and the count it returns is the number
        of executions it admitted to supervision.  `last` turns claimed a pair. */
    method DispatchReady(turns: nat -> Turn, leaseSeconds: real) returns (r: Outcome<nat>, ghost last: nat)
      requires scheduler.Valid() && Sound()
      modifies this, scheduler
      ensures scheduler.Valid() && Sound() && Calm(old(scheduler.db), scheduler.db)
      ensures Claimed(old(scheduler.db.attempts.Keys), scheduler.db.attempts.Keys, turns, last)
      ensures r.Ok? ==> forall t: Id, g: Id :: !ClaimChoice.Compatible(scheduler.db, t, g, turns(last).now)
      ensures r.Ok? ==> Admitted(old(admissions), admissions, r.value)
    {
      var n, dispatched := 0, 0;
      while true
        invariant scheduler.Valid() && Sound() && Calm(old(scheduler.db), scheduler.db)
        invariant Admitted(old(admissions), admissions, dispatched)
        invariant Claimed(old(scheduler.db.attempts.Keys), scheduler.db.attempts.Keys, turns, n)
        decreases |Queue(scheduler.db.tasks)|
      {
        ghost var attempted, admitted := scheduler.db.attempts.Keys, admissions;
        var claimed, count := TakeTurn(turns(n), leaseSeconds);
        if claimed {
          ClaimsOne(old(scheduler.db.attempts.Keys), attempted, turns, n);
        }
        if count.Err? {
          return Err(count.error), if claimed then n + 1 else n;
        }
        AdmittedTrans(old(admissions), admitted, admissions, dispatched, count.value);
        dispatched := dispatched + count.value;
        if !claimed {
          return Ok(dispatched), n;
        }
        n := n + 1;
      }
    }
  }

  lemma SmallerQueue(before: set<Id>, claimed: set<Id>, after: set<Id>, t: Id)
    requires t in before && claimed == before - {t} && after <= claimed
    ensures |after| < |before| && after <= before
  {
    Subset(after, claimed);
  }

  lemma {:induction false} Subset(a: set<Id>, b: set<Id>)
    requires a <= b
    ensures |a| <= |b|
    decreases a
  {
    if a != {} {
      var x :| x in a;
      Subset(a - {x}, b - {x});
    }
  }
}
