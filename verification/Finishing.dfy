/** What acknowledgements and cancellations come to, in terms of the rows. */
module Finishing {
  import opened Options
  import opened RowOrder
  import opened Tables
  import opened Topology
  import opened Work
  import opened Invariants
  import opened Closing
  import opened Settlement
  import opened SettleOps
  import opened CancelOps
  import opened Failures

  // ---------------------------------------------------------------- success

  /** The execution of the attempt is SUCCEEDED and over; others keep their rows. */
  ghost predicate SuccessRecorded(s: Db, s': Db, a: Id, quiet: bool) {
    && s'.executions.Keys == s.executions.Keys
    && forall x | x in s.executions :: s'.executions[x] ==
         if s.executions[x].attempt != a then s.executions[x]
         else s.executions[x].(state := ExecutionState.Succeeded, terminal := true, quiescent := quiet)
  }

  lemma FinishedRecords(s: Db, s': Db, a: Id, x: Option<Id>, quiet: bool, reusable: bool)
    requires a in s.attempts && TheExecution(s.executions, a, x)
      && s'.executions == FinishedRows(s, a, x, quiet, reusable).executions
    ensures SuccessRecorded(s, s', a, quiet)
  {
  }

  /** Released by the completion of `t`: BLOCKED, and waiting for nothing else. */
  predicate Unblocked(tasks: map<Id, Task>, t: Id, u: Id) {
    && t in tasks && u in tasks && u != t && tasks[u].state == TaskState.Blocked && tasks[u].batch == tasks[t].batch
    && forall d | d in tasks[u].deps && d in tasks :: d == t || tasks[d].state == TaskState.Completed
  }

  /** The task is COMPLETED with one new result; dependents that waited for it alone are QUEUED. */
  ghost predicate Completed(s: Db, s': Db, a: Id, result: Id) {
    && a in s.attempts && s.attempts[a].task in s.tasks
    && var t := s.attempts[a].task;
    && s'.tasks.Keys == s.tasks.Keys
    && s'.tasks[t] == s.tasks[t].(state := TaskState.Completed, current := None, nextEligible := None)
    && (forall u | u in s.tasks && u != t :: s'.tasks[u] ==
          if Unblocked(s.tasks, t, u) then s.tasks[u].(state := TaskState.Queued) else s.tasks[u])
    && result !in s.results
    && s'.results == s.results[result := Result(t, s.tasks[t].batch, a, s.attempts[a].agent, false)]
    && s'.escalations == s.escalations
  }

  /** A quiet, isolated or absent writer completes; any other is suspended, held and asked about. */
  ghost predicate Acked(s: Db, s': Db, a: Id, capsule: Capsule, quiet: bool, result: Id, now: real) {
    && a in s.attempts && a in s.leases && a in s'.attempts && a in s'.leases
    && s.attempts[a].agent in s.agents && s.attempts[a].agent in s'.agents
    && SuccessRecorded(s, s', a, quiet)
    && if WriterLeft(s, a, quiet)
       then && Ended(s, s', a, WriterQuiescenceUnknown, true, now)
            && s'.attempts[a].state == AttemptState.Failed && s'.leases[a].state == LeaseState.Revoked
            && s'.results == s.results
       else && Completed(s, s', a, result)
            && s'.attempts[a].state == AttemptState.Succeeded && s'.leases[a].state == LeaseState.Released
            && HandedBack(Promoted(s.agents[s.attempts[a].agent], capsule), s'.agents[s.attempts[a].agent],
                          s.partitions, now)
  }

  /** A capsule moves the continuity version. */
  function Promoted(agent: Agent, capsule: Capsule): Agent {
    if capsule == NoCapsule then agent else agent.(version := agent.version + 1)
  }

  lemma ReleasedTasks(tasks: map<Id, Task>, t: Id, u: Id)
    requires t in tasks && u in tasks && tasks[t].Held()
    ensures var tasks' := ReleaseDependencies(Completing(tasks, t), tasks[t].batch);
      && u in tasks'
      && tasks'[u] == if u == t then tasks[t].(state := TaskState.Completed, current := None, nextEligible := None)
                      else if Unblocked(tasks, t, u) then tasks[u].(state := TaskState.Queued) else tasks[u]
  {
  }

  lemma ShapedCompleted(s: Db, s': Db, a: Id, result: Id)
    requires a in s.attempts && s.attempts[a].task in s.tasks && s.tasks[s.attempts[a].task].Held()
    requires var t := s.attempts[a].task; s'.tasks == ReleaseDependencies(Completing(s.tasks, t), s.tasks[t].batch)
    requires result !in s.results && s'.escalations == s.escalations && s'.results
      == s.results[result := Result(s.attempts[a].task, s.tasks[s.attempts[a].task].batch, a, s.attempts[a].agent,
                                    false)]
    ensures Completed(s, s', a, result)
  {
    var t := s.attempts[a].task;
    forall u | u in s.tasks
      ensures u in s'.tasks
        && s'.tasks[u] == if u == t
                          then s.tasks[t].(state := TaskState.Completed, current := None, nextEligible := None)
                          else if Unblocked(s.tasks, t, u) then s.tasks[u].(state := TaskState.Queued)
                          else s.tasks[u] {
      ReleasedTasks(s.tasks, t, u);
    }
  }

  /** The agent goes back and dependents are released; the other rows stay. */
  ghost predicate Finished(s: Db, s': Db, g: Id, b: Id, now: real) {
    && g in s.agents && g in s'.agents && HandedBack(s.agents[g], s'.agents[g], s.partitions, now)
    && s'.agents == s.agents[g := s'.agents[g]] && s'.tasks == ReleaseDependencies(s.tasks, b)
    && s' == s.(agents := s'.agents, incarnations := s'.incarnations, tasks := s'.tasks, batches := s'.batches,
                outbox := s'.outbox)
  }

  lemma EnterOnly(s: Db, b: Id, next: BatchState, notice: Id)
    requires b in s.batches && EnterState(s, b, next, notice).Ok?
    ensures var s' := EnterState(s, b, next, notice).value; s' == s.(batches := s'.batches, outbox := s'.outbox)
  {
  }

  lemma RecomputeOnly(s: Db, b: Id, notice: Id)
    requires RecomputeBatch(s, b, notice).Ok?
    ensures var s' := RecomputeBatch(s, b, notice).value; s' == s.(batches := s'.batches, outbox := s'.outbox)
  {
    if !s.batches[b].Cancelled? {
      EnterOnly(s, b, BatchNext(s.tasks, b), notice);
    }
  }

  lemma FinishFinishes(s: Db, g: Id, b: Id, notice: Id, now: real)
    requires g in s.agents && ActivePartition(s.partitions, Desired(s.agents[g]))
      && FinishTask(s, g, b, notice, now).Ok?
    ensures Finished(s, FinishTask(s, g, b, notice, now).value, g, b, now)
  {
    ReleaseHandsBack(s, g, now);
    var s1 := ReleaseAgent(s, g, now).value;
    RecomputeOnly(s1.(tasks := ReleaseDependencies(s1.tasks, b)), b, notice);
  }

  lemma FinishedAcks(s: Db, rows: Db, s': Db, a: Id, x: Option<Id>, capsule: Capsule, quiet: bool, reusable: bool,
                     result: Id, now: real)
    requires Ripe(s, a) && TheExecution(s.executions, a, x) && !WriterLeft(s, a, quiet) && result !in s.results
    requires var g := s.attempts[a].agent;
      rows == CompletedRows(FinishedRows(s.(agents := s.agents[g := Promoted(s.agents[g], capsule)]), a, x, quiet,
                                         reusable), a, result)
    requires Finished(rows, s', s.attempts[a].agent, s.tasks[s.attempts[a].task].batch, now)
    ensures Acked(s, s', a, capsule, quiet, result, now)
  {
    FinishedRecords(s, s', a, x, quiet, reusable);
    ShapedCompleted(s, s', a, result);
  }

  lemma PromotionIs(s: Db, g: Id, capsule: Capsule)
    requires g in s.agents && PromoteVersion(s, g, capsule).Ok?
    ensures PromoteVersion(s, g, capsule).value == s.(agents := s.agents[g := Promoted(s.agents[g], capsule)])
  {
    assert s.agents[g := s.agents[g]] == s.agents;
  }

  lemma CompletedAcks(s: Db, a: Id, x: Option<Id>, capsule: Capsule, quiet: bool, reusable: bool, drawn: Drawn,
                      now: real)
    requires Ripe(s, a) && TheExecution(s.executions, a, x) && !WriterLeft(s, a, quiet)
    requires AckCompleted(s, a, x, capsule, quiet, reusable, drawn, now).Ok?
    ensures Acked(s, AckCompleted(s, a, x, capsule, quiet, reusable, drawn, now).value, a, capsule, quiet,
                  drawn.result, now)
  {
    var t, g := s.attempts[a].task, s.attempts[a].agent;
    AckCompletes(s, a, x, capsule, quiet, reusable, drawn, now);
    var s1 := s.(agents := s.agents[g := Promoted(s.agents[g], capsule)]);
    PromotionIs(s, g, capsule);
    var rows := CompletedRows(FinishedRows(s1, a, x, quiet, reusable), a, drawn.result);
    FinishFinishes(rows, g, s.tasks[t].batch, drawn.notice, now);
    FinishedAcks(s, rows, AckCompleted(s, a, x, capsule, quiet, reusable, drawn, now).value, a, x, capsule, quiet,
                 reusable, drawn.result, now);
  }

  lemma SuspendedAcks(s: Db, s2: Db, s': Db, a: Id, x: Option<Id>, capsule: Capsule, result: Id, now: real)
    requires Ripe(s, a) && TheExecution(s.executions, a, x) && WriterLeft(s, a, false)
    requires s2 == FinishedRows(s, a, x, false, false) && s'.results == s.results
    requires Closed(s, s2, s', a, AttemptState.Failed, LeaseState.Revoked, WriterQuiescenceUnknown, true, now)
    ensures Acked(s, s', a, capsule, false, result, now)
  {
    FinishedRecords(s, s', a, x, false, false);
  }

  lemma LeftAcks(s: Db, a: Id, x: Option<Id>, capsule: Capsule, drawn: Drawn, now: real)
    requires Ripe(s, a) && TheExecution(s.executions, a, x) && WriterLeft(s, a, false)
    requires CloseSuspended(FinishedRows(s, a, x, false, false), a, AttemptState.Failed, LeaseState.Revoked,
                            WriterQuiescenceUnknown, drawn, now).Ok?
    ensures Acked(s, CloseSuspended(FinishedRows(s, a, x, false, false), a, AttemptState.Failed, LeaseState.Revoked,
                                    WriterQuiescenceUnknown, drawn, now).value, a, capsule, false, drawn.result, now)
  {
    var s2 := FinishedRows(s, a, x, false, false);
    FinishedMarks(s, a, x, false, false);
    StopEnded(s, s2, a, AttemptState.Failed, LeaseState.Revoked, WriterQuiescenceUnknown, true, drawn, now);
    SuspendShape(s, s2, a, AttemptState.Failed, LeaseState.Revoked, WriterQuiescenceUnknown, drawn, now);
    SuspendedAcks(s, s2, CloseSuspended(s2, a, AttemptState.Failed, LeaseState.Revoked, WriterQuiescenceUnknown, drawn,
                                        now).value, a, x, capsule, drawn.result, now);
  }

  /** A committed acknowledgement. */
  lemma AckEnds(s: Db, a: Id, epoch: nat, supplied: Option<Id>, capsule: Capsule, quiet: bool, reusable: bool,
                drawn: Drawn, now: real)
    requires Inv(s) && AckSuccess(s, a, epoch, supplied, capsule, quiet, reusable, drawn, now).Ok?
    ensures Acked(s, AckSuccess(s, a, epoch, supplied, capsule, quiet, reusable, drawn, now).value, a, capsule, quiet,
                  drawn.result, now)
  {
    AckCases(s, a, epoch, supplied, capsule, quiet, reusable, drawn, now);
    LookupUnique(s, a, supplied);
    InvRipe(s, a);
    var x := ExecutionFor(s, a, supplied).value;
    LeftIs(s, a, x, quiet);
    if WriterLeft(s, a, quiet) {
      LeftAcks(s, a, x, capsule, drawn, now);
    } else {
      CompletedAcks(s, a, x, capsule, quiet, reusable, drawn, now);
    }
  }

  // ---------------------------------------------------------------- cancelling one attempt

  /** A WRITE execution that is neither isolated nor known to be quiet, and is not vouched for. */
  ghost predicate WriterUnknown(s: Db, a: Id, vouched: bool) {
    !vouched && WriterLost(s, a)
  }

  lemma UnknownIs(s: Db, a: Id, vouched: bool)
    requires a in s.attempts && s.attempts[a].task in s.tasks
      && TheExecution(s.executions, a, ExecutionOf(s.executions, a))
    ensures var x := ExecutionOf(s.executions, a);
      WriterUnknown(s, a, vouched) <==> !WriterSafe(s, s.attempts[a].task, x, KnownQuiet(s, x, vouched))
  {
  }

  /** CANCELLED and REVOKED; a writer that may still be writing takes its agent out of play. */
  ghost predicate Stopped(s: Db, s': Db, a: Id, unknown: bool, now: real) {
    && a in s.attempts && a in s'.attempts && s'.attempts[a] == s.attempts[a].(state := AttemptState.Cancelled)
    && a in s.leases && a in s'.leases && s'.leases[a] == s.leases[a].(state := LeaseState.Revoked)
    && var t, g := s.attempts[a].task, s.attempts[a].agent;
    && g in s.agents && g in s'.agents
    && if unknown
       then && s'.agents[g] == s.agents[g].(state := AgentState.Suspended, current := None, available := None)
            && Asked(s, s', t, g, WriterQuiescenceUnknown)
       else HandedBack(s.agents[g], s'.agents[g], s.partitions, now)
  }

  /** What a cancellation finds: an ACTIVE attempt whose task nobody was asked about. */
  ghost predicate Stoppable(s: Db, a: Id) {
    && a in s.attempts && s.attempts[a].state.Active? && a in s.leases && s.attempts[a].task in s.tasks
    && s.attempts[a].agent in s.agents && !s.agents[s.attempts[a].agent].state.Retired?
    && ActivePartition(s.partitions, Desired(s.agents[s.attempts[a].agent]))
    && !HasOpen(s.escalations, s.attempts[a].task)
    && TheExecution(s.executions, a, ExecutionOf(s.executions, a))
  }

  lemma InvStoppable(s: Db, a: Id)
    requires Inv(s) && a in s.attempts && s.attempts[a].state.Active?
    ensures Stoppable(s, a)
  {
    InvRipe(s, a);
    OwnUnique(s, a);
  }

  /** Before its task row is written. */
  ghost predicate StopsAttempt(s: Db, s': Db, a: Id, unknown: bool, now: real) {
    && Stopped(s, s', a, unknown, now) && OnlyItsRows(s, s', a)
    && s'.tasks == s.tasks && s'.batches == s.batches && s'.executions == s.executions
    && forall k | k in s'.escalations && k !in s.escalations :: s'.escalations[k].task == s.attempts[a].task
  }

  lemma DisposeStops(s: Db, s0: Db, a: Id, unknown: bool, drawn: Drawn, now: real)
    requires Stoppable(s, a)
    requires s0 == s.(attempts := s.attempts[a := s.attempts[a].(state := AttemptState.Cancelled)],
                      leases := s.leases[a := s.leases[a].(state := LeaseState.Revoked)],
                      incarnations := s0.incarnations)
    requires DisposeAgent(s0, a, !unknown, drawn, now).Ok?
    ensures StopsAttempt(s, DisposeAgent(s0, a, !unknown, drawn, now).value, a, unknown, now)
  {
    var t, g := s.attempts[a].task, s.attempts[a].agent;
    if unknown {
      var s' := DisposeAgent(s0, a, false, drawn, now).value;
      assert s'.escalations
          == s.escalations[drawn.escalation := Escalation(t, s.tasks[t].batch, g, WriterQuiescenceUnknown,
                                                          EscalationState.Open)];
      assert drawn.escalation in s'.escalations;
    } else {
      ReleaseHandsBack(s0, g, now);
    }
  }

  lemma AttemptStops(s: Db, a: Id, vouched: bool, drawn: Drawn, now: real)
    requires Stoppable(s, a) && CancelAttempt(s, a, vouched, drawn, now).Ok?
    ensures StopsAttempt(s, CancelAttempt(s, a, vouched, drawn, now).value, a, WriterUnknown(s, a, vouched), now)
  {
    var x := ExecutionOf(s.executions, a);
    UnknownIs(s, a, vouched);
    DisposeStops(s, CancelledRows(s, a, x, vouched), a, WriterUnknown(s, a, vouched), drawn, now);
  }

  // ---------------------------------------------------------------- cancel_task

  /** The task is CANCELLED and an attempt it had is stopped; a terminal task stays as it is. */
  ghost predicate TaskCancelled(s: Db, s': Db, t: Id, vouched: bool, now: real) {
    && t in s.tasks && s'.executions == s.executions
    && if s.tasks[t].state == TaskState.Completed || s.tasks[t].state == TaskState.Cancelled then s' == s
       else && s'.tasks == s.tasks[t := s.tasks[t].(state := TaskState.Cancelled, current := None)]
            && (match s.tasks[t].current
                case None => s'.attempts == s.attempts && s'.leases == s.leases && s'.agents == s.agents
                             && s'.escalations == s.escalations
                case Some(a) => Stopped(s, s', a, WriterUnknown(s, a, vouched), now) && OnlyTheAttempt(s, s', a))
  }

  /** No other attempt, lease or agent changed. */
  ghost predicate OnlyTheAttempt(s: Db, s': Db, a: Id) {
    && a in s.attempts && a in s'.attempts && a in s'.leases && s'.attempts == s.attempts[a := s'.attempts[a]]
    && s'.leases == s.leases[a := s'.leases[a]] && s.attempts[a].agent in s'.agents
    && s'.agents == s.agents[s.attempts[a].agent := s'.agents[s.attempts[a].agent]]
    && Grown(s.escalations, s'.escalations)
  }

  lemma IdleCancelled(s: Db, s': Db, t: Id, vouched: bool, now: real, notice: Id)
    requires t in s.tasks && !s.tasks[t].Terminal() && s.tasks[t].current.None?
    requires var r := RecomputeBatch(SetTask(s, t, TaskState.Cancelled, s.tasks[t].nextEligible), s.tasks[t].batch,
                                     notice);
      r == Ok(s')
    ensures TaskCancelled(s, s', t, vouched, now)
  {
    RecomputeOnly(SetTask(s, t, TaskState.Cancelled, s.tasks[t].nextEligible), s.tasks[t].batch, notice);
  }

  lemma HeldCancelled(s: Db, s1: Db, s': Db, t: Id, a: Id, vouched: bool, now: real, notice: Id)
    requires t in s.tasks && !s.tasks[t].Terminal() && s.tasks[t].current == Some(a)
    requires StopsAttempt(s, s1, a, WriterUnknown(s, a, vouched), now)
    requires var r := RecomputeBatch(SetTask(s1, t, TaskState.Cancelled, s.tasks[t].nextEligible), s.tasks[t].batch,
                                     notice);
      r == Ok(s')
    ensures TaskCancelled(s, s', t, vouched, now)
  {
    RecomputeOnly(SetTask(s1, t, TaskState.Cancelled, s.tasks[t].nextEligible), s.tasks[t].batch, notice);
    if Asked(s, s1, s.attempts[a].task, s.attempts[a].agent, WriterQuiescenceUnknown) {
      assert Asked(s, s', s.attempts[a].task, s.attempts[a].agent, WriterQuiescenceUnknown);
    }
  }

  lemma CurrentStoppable(s: Db, t: Id)
    requires Inv(s) && t in s.tasks && s.tasks[t].current.Some?
    ensures Stoppable(s, s.tasks[t].current.value)
  {
    assert TaskFenced(s.tasks[t], s.attempts, t);
    InvStoppable(s, s.tasks[t].current.value);
  }

  /** A committed cancellation of a task. */
  lemma CancelEnds(s: Db, t: Id, vouched: bool, drawn: Drawn, now: real)
    requires Inv(s) && CancelTask(s, t, vouched, drawn, now).Ok?
    ensures TaskCancelled(s, CancelTask(s, t, vouched, drawn, now).value, t, vouched, now)
  {
    if !s.tasks[t].Terminal() {
      CancelTaskValue(s, t, vouched, drawn, now);
      if s.tasks[t].current.None? {
        IdleCancelled(s, CancelTask(s, t, vouched, drawn, now).value, t, vouched, now, drawn.notice);
      } else {
        var a := s.tasks[t].current.value;
        CurrentStoppable(s, t);
        AttemptStops(s, a, vouched, drawn, now);
        HeldCancelled(s, CancelAttempt(s, a, vouched, drawn, now).value, CancelTask(s, t, vouched, drawn, now).value, t,
                      a, vouched, now, drawn.notice);
      }
    }
  }

  // ---------------------------------------------------------------- cancel_batch

  /** Attempts to stop, with neither task nor agent in common. */
  ghost predicate AllStoppable(s: Db, list: seq<Id>) {
    && Distinct(list) && (forall a | a in list :: Stoppable(s, a))
    && forall a, b | a in list && b in list && a != b && a in s.attempts && b in s.attempts ::
         s.attempts[a].task != s.attempts[b].task && s.attempts[a].agent != s.attempts[b].agent
  }

  ghost predicate AllStopped(s: Db, s': Db, list: seq<Id>, now: real) {
    forall a | a in list :: Stopped(s, s', a, WriterUnknown(s, a, false), now)
  }

  lemma BesideStoppable(s: Db, s1: Db, a: Id, b: Id, unknown: bool, now: real)
    requires StopsAttempt(s, s1, a, unknown, now) && Stoppable(s, b) && a != b
    requires s.attempts[a].task != s.attempts[b].task && s.attempts[a].agent != s.attempts[b].agent
    ensures Stoppable(s1, b) && SameRows(s, s1, b)
  {
  }

  lemma RestStoppable(s: Db, s1: Db, list: seq<Id>, unknown: bool, now: real)
    requires list != [] && AllStoppable(s, list) && StopsAttempt(s, s1, list[0], unknown, now)
    ensures AllStoppable(s1, list[1..])
    ensures forall b | b in list[1..] :: b in list && b != list[0] && SameRows(s, s1, b)
  {
    var a := list[0];
    assert a in list;
    forall b | b in list[1..] ensures b in list && b != a && Stoppable(s1, b) && SameRows(s, s1, b) {
      var i :| 0 <= i < |list[1..]| && list[1..][i] == b;
      assert list[i + 1] == b;
      BesideStoppable(s, s1, a, b, unknown, now);
    }
  }

  lemma StoppedEarlier(s: Db, s1: Db, s': Db, a: Id, now: real)
    requires SameRows(s, s1, a) && s1.executions == s.executions && s1.partitions == s.partitions
    requires s1.tasks == s.tasks && Grown(s.escalations, s1.escalations)
      && Stopped(s1, s', a, WriterUnknown(s1, a, false), now)
    ensures Stopped(s, s', a, WriterUnknown(s, a, false), now)
  {
    assert WriterLost(s1, a) == WriterLost(s, a);
  }

  lemma StoppedLater(s: Db, s1: Db, s': Db, a: Id, unknown: bool, now: real)
    requires SameRows(s1, s', a) && Grown(s1.escalations, s'.escalations) && Stopped(s, s1, a, unknown, now)
    ensures Stopped(s, s', a, unknown, now)
  {
    var t, g := s.attempts[a].task, s.attempts[a].agent;
    if Asked(s, s1, t, g, WriterQuiescenceUnknown) {
      var k :| k in s1.escalations && k !in s.escalations && t in s.tasks
        && s1.escalations[k] == Escalation(t, s.tasks[t].batch, g, WriterQuiescenceUnknown, EscalationState.Open);
      assert k in s'.escalations && s'.escalations[k] == s1.escalations[k];
    }
  }

  /** The first attempt's rows are not touched again. */
  lemma StoppedStays(s: Db, s1: Db, s': Db, list: seq<Id>, unknown: bool, now: real)
    requires list != [] && AllStoppable(s, list) && StopsAttempt(s, s1, list[0], unknown, now)
    requires OthersStay(s1, s', list[1..]) && forall b | b in list[1..] :: b in list && b != list[0]
    ensures SameRows(s1, s', list[0])
  {
    var a := list[0];
    assert a in list;
    forall b | b in list[1..] && b in s1.attempts
      ensures s1.attempts[b].task != s1.attempts[a].task && s1.attempts[b].agent != s1.attempts[a].agent {
      assert Stoppable(s, b);
    }
  }

  lemma TurnStops(s: Db, s1: Db, s': Db, list: seq<Id>, now: real)
    requires list != [] && AllStoppable(s, list)
    requires StopsAttempt(s, s1, list[0], WriterUnknown(s, list[0], false), now)
    requires OthersStay(s1, s', list[1..]) && AllStopped(s1, s', list[1..], now)
    ensures AllStopped(s, s', list, now)
  {
    RestStoppable(s, s1, list, WriterUnknown(s, list[0], false), now);
    StoppedStays(s, s1, s', list, WriterUnknown(s, list[0], false), now);
    StoppedLater(s, s1, s', list[0], WriterUnknown(s, list[0], false), now);
    forall a | a in list && a != list[0] ensures Stopped(s, s', a, WriterUnknown(s, a, false), now) {
      assert a in list[1..];
      StoppedEarlier(s, s1, s', a, now);
    }
  }

  lemma {:induction false} CancelEachStops(s: Db, list: seq<Id>, k: nat, draw: nat -> Drawn, now: real)
    requires AllStoppable(s, list) && CancelEach(s, list, k, draw, now).Ok?
    ensures var s' := CancelEach(s, list, k, draw, now).value;
      && OthersStay(s, s', list) && AllStopped(s, s', list, now) && s'.tasks == s.tasks && s'.batches == s.batches
    decreases |list|
  {
    if list != [] {
      var a := list[0];
      assert a in list;
      CancelStep(s, list, k, draw, now);
      AttemptStops(s, a, false, draw(k), now);
      var s1 := CancelAttempt(s, a, false, draw(k), now).value;
      RestStoppable(s, s1, list, WriterUnknown(s, a, false), now);
      CancelEachStops(s1, list[1..], k + 1, draw, now);
      var s' := CancelEach(s1, list[1..], k + 1, draw, now).value;
      StayTogether(s, s1, s', list);
      TurnStops(s, s1, s', list, now);
    }
  }

  /** An ACTIVE attempt of the batch. */
  predicate RunningIn(s: Db, a: Id, b: Id) {
    && a in s.attempts && s.attempts[a].state == AttemptState.Active && s.attempts[a].task in s.tasks
    && s.tasks[s.attempts[a].task].batch == b
  }

  /** Open questions of the batch are dropped, except about writers. */
  ghost predicate QuestionsDropped(s: Db, s': Db, b: Id) {
    forall k | k in s.escalations :: k in s'.escalations && s'.escalations[k] ==
      if s.escalations[k].batch == b && s.escalations[k].state == EscalationState.Open
         && s.escalations[k].cause != WriterQuiescenceUnknown
      then s.escalations[k].(state := EscalationState.Cancelled) else s.escalations[k]
  }

  ghost predicate TasksCancelled(s: Db, s': Db, b: Id) {
    && s'.tasks.Keys == s.tasks.Keys
    && forall t | t in s.tasks :: s'.tasks[t] ==
         if s.tasks[t].batch == b && s.tasks[t].state != TaskState.Completed
            && s.tasks[t].state != TaskState.Cancelled
         then s.tasks[t].(state := TaskState.Cancelled, current := None) else s.tasks[t]
  }

  /** Every unfinished task of the batch is CANCELLED and every attempt that ran is stopped. */
  ghost predicate BatchCancelled(s: Db, s': Db, b: Id, now: real) {
    && b in s.batches && s'.executions == s.executions
    && if s.batches[b] == BatchState.Cancelled then s' == s
       else && s'.batches == s.batches[b := BatchState.Cancelled]
            && TasksCancelled(s, s', b) && QuestionsDropped(s, s', b)
            && (forall a | RunningIn(s, a, b) :: Stopped(s, s', a, WriterUnknown(s, a, false), now))
            && (forall a | a in s.attempts && !RunningIn(s, a, b) ::
                  a in s'.attempts && s'.attempts[a] == s.attempts[a])
            && (forall a | a in s.leases && !RunningIn(s, a, b) :: a in s'.leases && s'.leases[a] == s.leases[a])
  }

  lemma DroppedStoppable(s: Db, b: Id, a: Id)
    requires Stoppable(s, a)
    ensures Stoppable(s.(escalations := CancelOthers(s.escalations, b)), a)
  {
  }

  lemma RunningStoppable(s: Db, b: Id, list: seq<Id>)
    requires Inv(s) && Distinct(list) && forall a | a in list :: RunningIn(s, a, b)
    ensures AllStoppable(s.(escalations := CancelOthers(s.escalations, b)), list)
  {
    forall a | a in list ensures Stoppable(s.(escalations := CancelOthers(s.escalations, b)), a) {
      InvStoppable(s, a);
      DroppedStoppable(s, b, a);
    }
    forall a, c | a in list && c in list && a != c
      ensures s.attempts[a].task != s.attempts[c].task && s.attempts[a].agent != s.attempts[c].agent {
      ActiveApart(s, a, c);
    }
  }

  /** Dropping the open questions of a batch moves no other row. */
  lemma StoppedDropped(s: Db, s0: Db, s': Db, a: Id, now: real)
    requires s0 == s.(escalations := s0.escalations) && s0.escalations.Keys == s.escalations.Keys
    requires Stopped(s0, s', a, WriterUnknown(s0, a, false), now)
    ensures Stopped(s, s', a, WriterUnknown(s, a, false), now)
  {
    assert WriterLost(s0, a) == WriterLost(s, a);
  }

  lemma StopsBatch(s: Db, s1: Db, s': Db, b: Id, list: seq<Id>, now: real)
    requires var s0 := s.(escalations := CancelOthers(s.escalations, b));
      OthersStay(s0, s1, list) && AllStopped(s0, s1, list, now) && s1.tasks == s.tasks && s1.batches == s.batches
    requires b in s.batches && !s.batches[b].Cancelled? && forall a :: a in list <==> RunningIn(s, a, b)
    requires s' == s1.(tasks := CancelTasks(s1.tasks, b), batches := s1.batches[b := BatchState.Cancelled])
    ensures BatchCancelled(s, s', b, now)
  {
    var s0 := s.(escalations := CancelOthers(s.escalations, b));
    StopsRows(s, s0, s1, s', b, list);
    forall a | RunningIn(s, a, b) ensures Stopped(s, s', a, WriterUnknown(s, a, false), now) {
      StoppedDropped(s, s0, s1, a, now);
      StillStopped(s, s1, s', a, now);
    }
  }

  lemma StopsRows(s: Db, s0: Db, s1: Db, s': Db, b: Id, list: seq<Id>)
    requires s0 == s.(escalations := CancelOthers(s.escalations, b)) && OthersStay(s0, s1, list)
    requires s1.tasks == s.tasks && s' == s1.(tasks := CancelTasks(s1.tasks, b), batches := s'.batches)
    ensures TasksCancelled(s, s', b) && QuestionsDropped(s, s', b)
  {
  }

  lemma StillStopped(s: Db, s1: Db, s': Db, a: Id, now: real)
    requires Stopped(s, s1, a, WriterUnknown(s, a, false), now)
    requires s' == s1.(tasks := s'.tasks, batches := s'.batches)
    ensures Stopped(s, s', a, WriterUnknown(s, a, false), now)
  {
    var t, g := s.attempts[a].task, s.attempts[a].agent;
    if Asked(s, s1, t, g, WriterQuiescenceUnknown) {
      assert Asked(s, s', t, g, WriterQuiescenceUnknown);
    }
  }

  lemma RunningListed(s: Db, b: Id)
    ensures Distinct(ById(ActiveSet(s, b)))
    ensures forall a :: a in ById(ActiveSet(s, b)) <==> RunningIn(s, a, b)
  {
    ListingDistinct(ByIdRows(ActiveSet(s, b)));
  }

  lemma BatchStops(s: Db, b: Id, draw: nat -> Drawn, now: real)
    requires b in s.batches && !s.batches[b].Cancelled? && CancelBatch(s, b, draw, now).Ok?
    requires AllStoppable(s.(escalations := CancelOthers(s.escalations, b)), ById(ActiveSet(s, b)))
    ensures BatchCancelled(s, CancelBatch(s, b, draw, now).value, b, now)
  {
    var s0, list := s.(escalations := CancelOthers(s.escalations, b)), ById(ActiveSet(s, b));
    RunningListed(s, b);
    CancelEachStops(s0, list, 0, draw, now);
    StopsBatch(s, CancelEach(s0, list, 0, draw, now).value, CancelBatch(s, b, draw, now).value, b, list, now);
  }

  /** A committed cancellation of a batch. */
  lemma CancelBatchEnds(s: Db, b: Id, draw: nat -> Drawn, now: real)
    requires Inv(s) && CancelBatch(s, b, draw, now).Ok?
    ensures BatchCancelled(s, CancelBatch(s, b, draw, now).value, b, now)
  {
    if !s.batches[b].Cancelled? {
      RunningListed(s, b);
      RunningStoppable(s, b, ById(ActiveSet(s, b)));
      BatchStops(s, b, draw, now);
    }
  }
}
