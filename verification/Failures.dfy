/** What failure reports and lapsed leases come to, in terms of the rows. */
module Failures {
  import opened Options
  import opened RowOrder
  import opened Tables
  import opened Topology
  import opened Work
  import opened Invariants
  import opened Settlement
  import opened SettleOps

  // ---------------------------------------------------------------- the pause before a retry

  function TwoTo(n: nat): nat {
    if n == 0 then 1 else 2 * TwoTo(n - 1)
  }

  /** base * 2^(number - 1), up to the ceiling. */
  function Pause(task: Task, number: nat): real
    requires number >= 1
  {
    var pause := task.baseBackoff * (TwoTo(number - 1) as real);
    if pause < task.maxBackoff then pause else task.maxBackoff
  }

  lemma {:induction false} PowersAgree(n: nat)
    ensures Pow2(n) == TwoTo(n) as real
  {
    if n > 0 {
      PowersAgree(n - 1);
    }
  }

  lemma PauseIs(task: Task, number: nat)
    requires number >= 1
    ensures Backoff(task, number) == Pause(task, number)
  {
    PowersAgree(number - 1);
  }

  // ---------------------------------------------------------------- the agent

  /** Where the agent is headed. */
  function Home(agent: Agent): Id {
    match agent.pending case Some(p) => p case None => agent.partition
  }

  /** At an assignment boundary an agent told to retire, or bound for an EPHEMERAL partition,
      is RETIRED; any other is READY where it is headed. */
  predicate HandedBack(agent: Agent, agent': Agent, parts: map<Id, Partition>, now: real) {
    && Home(agent) in parts
    && (agent'.state == AgentState.Retired <==> agent.retire || parts[Home(agent)].retention == Ephemeral)
    && (agent'.state != AgentState.Retired ==>
          agent' == agent.(partition := Home(agent), state := AgentState.Ready, current := None, pending := None,
                           available := Some(now)))
    && agent'.current == None && agent'.pending == None && !agent'.retire
  }

  /** Only the agent's row and its incarnations change. */
  ghost predicate Hands(s: Db, s': Db, g: Id, now: real) {
    && g in s.agents && g in s'.agents
    && s' == s.(agents := s.agents[g := s'.agents[g]], incarnations := s'.incarnations)
    && HandedBack(s.agents[g], s'.agents[g], s.partitions, now)
  }

  function Released(s: Db, g: Id, now: real): Db
    requires g in s.agents && Desired(s.agents[g]) in s.partitions
  {
    if s.agents[g].retire then RetireAgent(s, g) else IdleRows(CutoverRows(s, g, Desired(s.agents[g])), g, now)
  }

  /** The agent's row written twice. */
  lemma Rewritten(s: Db, s1: Db, g: Id, first: Agent, second: Agent, incs: map<Id, Incarnation>, now: real)
    requires g in s.agents && s1 == s.(agents := s.agents[g := first], incarnations := s1.incarnations)
    requires HandedBack(s.agents[g], second, s.partitions, now)
    ensures Hands(s, s1.(agents := s1.agents[g := second], incarnations := incs), g, now)
  {
    assert s.agents[g := first][g := second] == s.agents[g := second];
  }

  lemma RetiredHands(s: Db, g: Id, now: real)
    requires g in s.agents && s.agents[g].retire && Desired(s.agents[g]) in s.partitions
    ensures Hands(s, RetireAgent(s, g), g, now)
  {
  }

  lemma CutoverHands(s: Db, s1: Db, g: Id, now: real)
    requires g in s.agents && !s.agents[g].retire && Desired(s.agents[g]) in s.partitions
    requires s1 == CutoverRows(s, g, Desired(s.agents[g]))
    ensures Hands(s, IdleRows(s1, g, now), g, now)
  {
    var home := Desired(s.agents[g]);
    var row := s.agents[g].(partition := home, pending := None, retire := false);
    if s.partitions[home].retention == Ephemeral {
      Rewritten(s, s1, g, row, RetiredRow(row), FenceOff(s1.incarnations, g, None), now);
    } else {
      Rewritten(s, s1, g, row, row.(state := AgentState.Ready, current := None, available := Some(now)),
                s1.incarnations, now);
    }
  }

  lemma ReleasedHands(s: Db, g: Id, now: real)
    requires g in s.agents && Desired(s.agents[g]) in s.partitions
    ensures Hands(s, Released(s, g, now), g, now)
  {
    if s.agents[g].retire {
      RetiredHands(s, g, now);
    } else {
      CutoverHands(s, CutoverRows(s, g, Desired(s.agents[g])), g, now);
    }
  }

  lemma ReleaseIs(s: Db, g: Id, now: real)
    requires g in s.agents && ActivePartition(s.partitions, Desired(s.agents[g])) && ReleaseAgent(s, g, now).Ok?
    ensures ReleaseAgent(s, g, now).value == Released(s, g, now)
  {
    assert Canonical(s.partitions, Desired(s.agents[g])) == Ok(Desired(s.agents[g]));
  }

  lemma ReleaseHandsBack(s: Db, g: Id, now: real)
    requires g in s.agents && ActivePartition(s.partitions, Desired(s.agents[g])) && ReleaseAgent(s, g, now).Ok?
    ensures Hands(s, ReleaseAgent(s, g, now).value, g, now)
  {
    ReleaseIs(s, g, now);
    ReleasedHands(s, g, now);
  }

  // ---------------------------------------------------------------- one attempt

  /** Only rows of the attempt were written, and its escalation if one was raised. */
  ghost predicate OnlyItsRows(s: Db, s': Db, a: Id) {
    && a in s.attempts && a in s'.attempts && a in s'.leases
    && var t, g := s.attempts[a].task, s.attempts[a].agent;
    && t in s.tasks && t in s'.tasks && g in s.agents && g in s'.agents
    && s'.attempts == s.attempts[a := s.attempts[a].(state := s'.attempts[a].state)]
    && s'.leases == s.leases[a := s'.leases[a]]
    && s'.tasks == s.tasks[t := s'.tasks[t]] && s'.agents == s.agents[g := s'.agents[g]]
    && s'.partitions == s.partitions && Grown(s.escalations, s'.escalations)
  }

  ghost predicate Asked(s: Db, s': Db, t: Id, g: Id, cause: FailureClass) {
    exists k :: k in s'.escalations && k !in s.escalations && t in s.tasks
      && s'.escalations[k] == Escalation(t, s.tasks[t].batch, g, cause, EscalationState.Open)
  }

  /** RETRY_WAIT exactly when the cause is retryable, attempts remain and no writer was left
      behind; otherwise SUSPENDED with a question to Root, and a writer left behind takes its
      agent out of play. */
  ghost predicate Ended(s: Db, s': Db, a: Id, cause: FailureClass, left: bool, at: real) {
    && a in s.attempts
    && var t, g, number := s.attempts[a].task, s.attempts[a].agent, s.attempts[a].number;
    && t in s.tasks && t in s'.tasks && g in s.agents && g in s'.agents && number >= 1
    && var task, task' := s.tasks[t], s'.tasks[t];
    && (task'.state == TaskState.RetryWait <==>
          cause in task.retryClasses && number < task.maxAttempts && !left)
    && task' == task.(current := None, state := task'.state,
                      nextEligible := if task'.state == TaskState.RetryWait then Some(at + Pause(task, number))
                        else task.nextEligible)
    && (task'.state != TaskState.RetryWait ==>
          task'.state == TaskState.Suspended && Asked(s, s', t, g, if left then WriterQuiescenceUnknown else cause))
    && (if task'.state == TaskState.Suspended && (left || cause == WriterQuiescenceUnknown)
        then s'.agents[g] == s.agents[g].(state := AgentState.Suspended, current := None, available := None)
        else HandedBack(s.agents[g], s'.agents[g], s.partitions, at))
  }

  /** One closed attempt, with the states its rows take. */
  ghost predicate Closed(s: Db, s2: Db, s': Db, a: Id, attempt: AttemptState, lease: LeaseState, cause: FailureClass,
                         left: bool, at: real) {
    && Ended(s, s', a, cause, left, at) && OnlyItsRows(s, s', a) && s'.executions == s2.executions
    && s'.attempts[a] == s.attempts[a].(state := attempt) && a in s.leases
    && s'.leases[a] == s.leases[a].(state := lease)
  }

  /** What a settlement finds under the invariant. */
  ghost predicate Ripe(s: Db, a: Id) {
    && Suspendable(s, a) && s.attempts[a].number >= 1
    && ActivePartition(s.partitions, Desired(s.agents[s.attempts[a].agent]))
  }

  lemma InvRipe(s: Db, a: Id)
    requires Inv(s) && a in s.attempts && s.attempts[a].state.Active?
    ensures Ripe(s, a)
  {
    InvSuspendable(s, a);
    assert AttemptFenced(s.tasks, s.attempts[a], s.leases[a], a);
    assert AgentPlaced(s.agents[s.attempts[a].agent], s.partitions);
  }

  lemma RetryClosed(s: Db, s2: Db, s': Db, a: Id, attempt: AttemptState, lease: LeaseState, cause: FailureClass,
                    at: real)
    requires Ripe(s, a) && Marked(s, s2, a)
    requires var t := s.attempts[a].task;
      && cause in s.tasks[t].retryClasses && s.attempts[a].number < s.tasks[t].maxAttempts
      && Hands(ClosedRows(s2, a, attempt, lease, TaskState.RetryWait,
                          Some(at + Pause(s.tasks[t], s.attempts[a].number))),
               s', s.attempts[a].agent, at)
    ensures Closed(s, s2, s', a, attempt, lease, cause, false, at)
  {
  }

  lemma RetryEnded(s: Db, s2: Db, a: Id, attempt: AttemptState, lease: LeaseState, cause: FailureClass, eligible: real,
                   at: real)
    requires Ripe(s, a) && Marked(s, s2, a)
    requires var t := s.attempts[a].task;
      && cause in s.tasks[t].retryClasses && s.attempts[a].number < s.tasks[t].maxAttempts
      && eligible == at + Backoff(s.tasks[t], s.attempts[a].number)
    requires CloseRetry(s2, a, attempt, lease, eligible, at).Ok?
    ensures Closed(s, s2, CloseRetry(s2, a, attempt, lease, eligible, at).value, a, attempt, lease, cause, false, at)
  {
    PauseIs(s.tasks[s.attempts[a].task], s.attempts[a].number);
    ReleaseHandsBack(ClosedRows(s2, a, attempt, lease, TaskState.RetryWait, Some(eligible)), s.attempts[a].agent, at);
    RetryClosed(s, s2, CloseRetry(s2, a, attempt, lease, eligible, at).value, a, attempt, lease, cause, at);
  }

  /** The rows of a suspension before Root is asked. */
  ghost predicate Halted(s: Db, s2: Db, s': Db, a: Id, attempt: AttemptState, lease: LeaseState, cause: FailureClass,
                         at: real) {
    && Ripe(s, a)
    && var t, g := s.attempts[a].task, s.attempts[a].agent;
    && g in s'.agents && a in s2.attempts && a in s2.leases
    && s' == s2.(attempts := s2.attempts[a := s2.attempts[a].(state := attempt)],
                 leases := s2.leases[a := s2.leases[a].(state := lease)],
                 tasks := s2.tasks[t := s.tasks[t].(state := TaskState.Suspended, current := None)],
                 agents := s2.agents[g := s'.agents[g]], incarnations := s'.incarnations)
    && (if cause == WriterQuiescenceUnknown
        then s'.agents[g] == s.agents[g].(state := AgentState.Suspended, current := None, available := None)
        else HandedBack(s.agents[g], s'.agents[g], s.partitions, at))
  }

  lemma SuspendedHalts(s: Db, s2: Db, a: Id, attempt: AttemptState, lease: LeaseState, cause: FailureClass, at: real)
    requires Ripe(s, a) && Marked(s, s2, a) && SuspendedRows(s2, a, attempt, lease, cause, at).Ok?
    ensures Halted(s, s2, SuspendedRows(s2, a, attempt, lease, cause, at).value, a, attempt, lease, cause, at)
  {
    if cause != WriterQuiescenceUnknown {
      ReleaseHandsBack(ClosedRows(s2, a, attempt, lease, TaskState.Suspended, s.tasks[s.attempts[a].task].nextEligible),
                       s.attempts[a].agent, at);
    }
  }

  lemma HaltClosed(s: Db, s2: Db, s3: Db, s': Db, a: Id, attempt: AttemptState, lease: LeaseState, cause: FailureClass,
                   left: bool, k: Id, at: real)
    requires Marked(s, s2, a)
      && Halted(s, s2, s3, a, attempt, lease, if left then WriterQuiescenceUnknown else cause, at)
    requires var t := s.attempts[a].task;
      cause !in s.tasks[t].retryClasses || s.attempts[a].number >= s.tasks[t].maxAttempts || left
    requires s' == s3.(escalations := s'.escalations, outbox := s'.outbox, batches := s'.batches)
    requires k !in s3.escalations && s'.escalations
      == s3.escalations[k := Escalation(s.attempts[a].task, s.tasks[s.attempts[a].task].batch, s.attempts[a].agent,
                                        if left then WriterQuiescenceUnknown else cause, EscalationState.Open)]
    ensures Closed(s, s2, s', a, attempt, lease, cause, left, at)
  {
    assert k in s'.escalations;
  }

  lemma StopEnded(s: Db, s2: Db, a: Id, attempt: AttemptState, lease: LeaseState, cause: FailureClass, left: bool,
                  drawn: Drawn, at: real)
    requires Ripe(s, a) && Marked(s, s2, a)
    requires var t := s.attempts[a].task;
      cause !in s.tasks[t].retryClasses || s.attempts[a].number >= s.tasks[t].maxAttempts || left
    requires CloseSuspended(s2, a, attempt, lease, if left then WriterQuiescenceUnknown else cause, drawn, at).Ok?
    ensures Closed(s, s2, CloseSuspended(s2, a, attempt, lease, if left then WriterQuiescenceUnknown else cause, drawn,
                                         at).value, a, attempt, lease, cause, left, at)
  {
    var t, g := s.attempts[a].task, s.attempts[a].agent;
    var named := if left then WriterQuiescenceUnknown else cause;
    SuspendedHalts(s, s2, a, attempt, lease, named, at);
    var s3 := SuspendedRows(s2, a, attempt, lease, named, at).value;
    EscalateValue(s3, t, g, named, drawn, s.tasks[t].batch);
    HaltClosed(s, s2, s3, CloseSuspended(s2, a, attempt, lease, named, drawn, at).value, a, attempt, lease, cause, left,
               drawn.escalation, at);
  }

  lemma SettleCloses(s: Db, s2: Db, a: Id, attempt: AttemptState, onRetry: LeaseState, onStop: LeaseState,
                     cause: FailureClass, left: bool, verdict: Verdict, drawn: Drawn, at: real)
    requires Ripe(s, a) && Marked(s, s2, a)
    requires verdict == Judge(s.tasks[s.attempts[a].task], cause, s.attempts[a].number, !left, at)
    requires Settle(s2, a, attempt, onRetry, onStop, verdict, drawn, at).Ok?
    ensures Closed(s, s2, Settle(s2, a, attempt, onRetry, onStop, verdict, drawn, at).value, a, attempt,
                   if verdict.RetryAt? then onRetry else onStop, cause, left, at)
  {
    match verdict
    case RetryAt(eligible) => RetryEnded(s, s2, a, attempt, onRetry, cause, eligible, at);
    case Stop(named) => StopEnded(s, s2, a, attempt, onStop, cause, left, drawn, at);
  }

  // ---------------------------------------------------------------- nack

  /** A WRITE execution of the attempt that is not isolated, and nobody says it is quiet. */
  ghost predicate WriterLeft(s: Db, a: Id, quiet: bool) {
    && a in s.attempts && s.attempts[a].task in s.tasks && s.tasks[s.attempts[a].task].mode == Write && !quiet
    && exists x :: x in s.executions && s.executions[x].attempt == a && !s.executions[x].isolated
  }

  /** The execution of the attempt is FAILED or UNKNOWN as reported; others keep their rows. */
  ghost predicate FailureRecorded(s: Db, s': Db, a: Id, report: Report) {
    && s'.executions.Keys == s.executions.Keys
    && forall x | x in s.executions :: s'.executions[x] ==
         if s.executions[x].attempt != a then s.executions[x]
         else s.executions[x].(state := if report.terminal then ExecutionState.Failed else ExecutionState.Unknown,
                               terminal := report.terminal, quiescent := report.quiescent)
  }

  lemma FailedRecords(s: Db, s': Db, a: Id, x: Option<Id>, report: Report)
    requires a in s.attempts && TheExecution(s.executions, a, x)
      && s'.executions == FailedRows(s, a, x, report).executions
    ensures FailureRecorded(s, s', a, report)
  {
  }

  lemma LeftIs(s: Db, a: Id, x: Option<Id>, quiet: bool)
    requires a in s.attempts && s.attempts[a].task in s.tasks && TheExecution(s.executions, a, x)
    ensures WriterLeft(s, a, quiet) <==> !WriterSafe(s, s.attempts[a].task, x, quiet)
  {
  }

  /** A failure report closes its attempt as FAILED and gives the lease back when it retries. */
  ghost predicate Failed(s: Db, s': Db, a: Id, report: Report, at: real) {
    && Ended(s, s', a, report.cause, WriterLeft(s, a, report.quiescent), at) && OnlyItsRows(s, s', a)
    && FailureRecorded(s, s', a, report)
    && s'.attempts[a] == s.attempts[a].(state := AttemptState.Failed) && a in s.leases
    && s'.leases[a] == s.leases[a].(state := if s'.tasks[s.attempts[a].task].state == TaskState.RetryWait
                                      then LeaseState.Released else LeaseState.Revoked)
  }

  lemma ClosedFails(s: Db, s2: Db, s': Db, a: Id, x: Option<Id>, report: Report, lease: LeaseState, at: real)
    requires a in s.attempts && s2 == FailedRows(s, a, x, report) && TheExecution(s.executions, a, x)
    requires Closed(s, s2, s', a, AttemptState.Failed, lease, report.cause, WriterLeft(s, a, report.quiescent), at)
    requires lease == if s'.tasks[s.attempts[a].task].state == TaskState.RetryWait then LeaseState.Released
      else LeaseState.Revoked
    ensures Failed(s, s', a, report, at)
  {
    FailedRecords(s, s', a, x, report);
  }

  lemma JudgedRetry(task: Task, cause: FailureClass, number: nat, left: bool, at: real)
    ensures Judge(task, cause, number, !left, at).RetryAt? <==>
      cause in task.retryClasses && number < task.maxAttempts && !left
  {
  }

  /** A committed failure report. */
  lemma NackFails(s: Db, a: Id, epoch: nat, supplied: Option<Id>, report: Report, drawn: Drawn, at: real, now: real)
    requires Inv(s) && Nack(s, a, epoch, supplied, report, drawn, at, now).Ok?
    ensures Failed(s, Nack(s, a, epoch, supplied, report, drawn, at, now).value, a, report, at)
  {
    NackSettles(s, a, epoch, supplied, report, drawn, at, now);
    LookupUnique(s, a, supplied);
    InvRipe(s, a);
    var x, t := ExecutionFor(s, a, supplied).value, s.attempts[a].task;
    FailedMarks(s, a, x, report);
    LeftIs(s, a, x, report.quiescent);
    NackCloses(s, a, x, report, drawn, at);
  }

  lemma NackCloses(s: Db, a: Id, x: Option<Id>, report: Report, drawn: Drawn, at: real)
    requires Ripe(s, a) && TheExecution(s.executions, a, x) && Marked(s, FailedRows(s, a, x, report), a)
    requires var t := s.attempts[a].task;
      Settle(FailedRows(s, a, x, report), a, AttemptState.Failed, LeaseState.Released, LeaseState.Revoked,
             Judge(s.tasks[t], report.cause, s.attempts[a].number, WriterSafe(s, t, x, report.quiescent), at), drawn,
             at).Ok?
    ensures var t := s.attempts[a].task;
      Failed(s, Settle(FailedRows(s, a, x, report), a, AttemptState.Failed, LeaseState.Released, LeaseState.Revoked,
                       Judge(s.tasks[t], report.cause, s.attempts[a].number, WriterSafe(s, t, x, report.quiescent), at),
                       drawn, at).value, a, report, at)
  {
    var t, left := s.attempts[a].task, WriterLeft(s, a, report.quiescent);
    LeftIs(s, a, x, report.quiescent);
    var rows := FailedRows(s, a, x, report);
    var verdict := Judge(s.tasks[t], report.cause, s.attempts[a].number, !left, at);
    SettleCloses(s, rows, a, AttemptState.Failed, LeaseState.Released, LeaseState.Revoked, report.cause, left, verdict,
                 drawn, at);
    JudgedRetry(s.tasks[t], report.cause, s.attempts[a].number, left, at);
    ClosedFails(s, rows, Settle(rows, a, AttemptState.Failed, LeaseState.Released, LeaseState.Revoked, verdict, drawn,
                                at).value,
                a, x, report, if verdict.RetryAt? then LeaseState.Released else LeaseState.Revoked, at);
  }

  // ---------------------------------------------------------------- expiry

  /** A WRITE execution of the attempt that is neither isolated nor known to be quiet. */
  ghost predicate WriterLost(s: Db, a: Id) {
    && a in s.attempts && s.attempts[a].task in s.tasks && s.tasks[s.attempts[a].task].mode == Write
    && exists x :: x in s.executions && s.executions[x].attempt == a && !s.executions[x].isolated
                   && !s.executions[x].quiescent
  }

  /** An expired attempt ends like a lost execution. */
  ghost predicate Lapses(s: Db, s': Db, a: Id, now: real) {
    && Ended(s, s', a, ExecutionLost, WriterLost(s, a), now)
    && a in s'.attempts && s'.attempts[a] == s.attempts[a].(state := AttemptState.Expired)
    && a in s.leases && a in s'.leases && s'.leases[a] == s.leases[a].(state := LeaseState.Expired)
  }

  lemma LostIs(s: Db, a: Id)
    requires a in s.attempts && s.attempts[a].task in s.tasks
      && TheExecution(s.executions, a, ExecutionOf(s.executions, a))
    ensures WriterLost(s, a) <==> !ExpiresSafely(s, a)
  {
  }

  lemma ExpireOneLapses(s: Db, a: Id, drawn: Drawn, now: real)
    requires Ripe(s, a) && TheExecution(s.executions, a, ExecutionOf(s.executions, a))
      && ExpireOne(s, a, drawn, now).Ok?
    ensures var s' := ExpireOne(s, a, drawn, now).value;
      Lapses(s, s', a, now) && OnlyItsRows(s, s', a) && s'.executions == s.executions
  {
    LostIs(s, a);
    ExpireMarks(s, a);
    ExpireSettles(s, a, drawn, now);
    SettleCloses(s, ExpiredRows(s, a), a, AttemptState.Expired, LeaseState.Expired, LeaseState.Expired, ExecutionLost,
                 WriterLost(s, a),
                 Judge(s.tasks[s.attempts[a].task], ExecutionLost, s.attempts[a].number, !WriterLost(s, a), now),
                 drawn, now);
  }

  /** The attempt, its lease, task and agent are as they were. */
  ghost predicate SameRows(s: Db, s': Db, a: Id) {
    && a in s.attempts && a in s'.attempts && s'.attempts[a] == s.attempts[a]
    && a in s.leases && a in s'.leases && s'.leases[a] == s.leases[a]
    && var t, g := s.attempts[a].task, s.attempts[a].agent;
    && t in s.tasks && t in s'.tasks && s'.tasks[t] == s.tasks[t]
    && g in s.agents && g in s'.agents && s'.agents[g] == s.agents[g]
  }

  lemma LapsesEarlier(s: Db, s1: Db, s': Db, a: Id, now: real)
    requires SameRows(s, s1, a) && s1.executions == s.executions && s1.partitions == s.partitions
    requires Grown(s.escalations, s1.escalations) && Lapses(s1, s', a, now)
    ensures Lapses(s, s', a, now)
  {
    assert WriterLost(s1, a) == WriterLost(s, a);
  }

  lemma LapsesLater(s: Db, s1: Db, s': Db, a: Id, now: real)
    requires SameRows(s1, s', a) && Grown(s1.escalations, s'.escalations) && Lapses(s, s1, a, now)
    ensures Lapses(s, s', a, now)
  {
    var t, g, cause := s.attempts[a].task, s.attempts[a].agent,
                       if WriterLost(s, a) then WriterQuiescenceUnknown else ExecutionLost;
    if Asked(s, s1, t, g, cause) {
      var k :| k in s1.escalations && k !in s.escalations
        && s1.escalations[k] == Escalation(t, s.tasks[t].batch, g, cause, EscalationState.Open);
      assert k in s'.escalations && s'.escalations[k] == s1.escalations[k];
    }
  }

  /** Two ACTIVE attempts have neither task nor agent in common. */
  lemma ActiveApart(s: Db, a: Id, b: Id)
    requires Fenced(s.tasks, s.attempts, s.leases) && AgentsEngaged(s.tasks, s.attempts, s.agents)
    requires a in s.attempts && b in s.attempts && s.attempts[a].state.Active? && s.attempts[b].state.Active? && a != b
    ensures s.attempts[a].task != s.attempts[b].task && s.attempts[a].agent != s.attempts[b].agent
  {
    assert AttemptFenced(s.tasks, s.attempts[a], s.leases[a], a);
    assert AttemptFenced(s.tasks, s.attempts[b], s.leases[b], b);
  }

  lemma OthersSame(s: Db, s1: Db, a: Id, b: Id)
    requires Fenced(s.tasks, s.attempts, s.leases) && AgentsEngaged(s.tasks, s.attempts, s.agents)
    requires OnlyItsRows(s, s1, a)
    requires b in s.attempts && s.attempts[a].state.Active? && s.attempts[b].state.Active? && a != b
    ensures SameRows(s, s1, b)
  {
    ActiveApart(s, a, b);
    assert AttemptFenced(s.tasks, s.attempts[b], s.leases[b], b);
  }

  /** Rows that belong to no attempt of the list are as they were. */
  ghost predicate OthersStay(s: Db, s': Db, list: seq<Id>) {
    && s'.executions == s.executions && s'.partitions == s.partitions && Grown(s.escalations, s'.escalations)
    && s'.attempts.Keys == s.attempts.Keys && s'.leases.Keys == s.leases.Keys
    && s'.tasks.Keys == s.tasks.Keys && s'.agents.Keys == s.agents.Keys
    && (forall a | a in s.attempts && a !in list :: s'.attempts[a] == s.attempts[a])
    && (forall a | a in s.leases && a !in list :: s'.leases[a] == s.leases[a])
    && (forall t | t in s.tasks && (forall a | a in list && a in s.attempts :: s.attempts[a].task != t) ::
          s'.tasks[t] == s.tasks[t])
    && (forall g | g in s.agents && (forall a | a in list && a in s.attempts :: s.attempts[a].agent != g) ::
          s'.agents[g] == s.agents[g])
  }

  lemma StayTogether(s: Db, s1: Db, s': Db, list: seq<Id>)
    requires list != [] && OnlyItsRows(s, s1, list[0]) && s1.executions == s.executions && list[0] in s.leases
    requires OthersStay(s1, s', list[1..])
    ensures OthersStay(s, s', list)
  {
    assert forall a | a in s.attempts ::
      s1.attempts[a].task == s.attempts[a].task && s1.attempts[a].agent == s.attempts[a].agent;
    assert forall a :: a in list <==> a == list[0] || a in list[1..];
  }

  /** The first attempt's rows are not touched again. */
  lemma FirstStays(s: Db, s1: Db, s': Db, list: seq<Id>)
    requires Fenced(s.tasks, s.attempts, s.leases) && AgentsEngaged(s.tasks, s.attempts, s.agents)
    requires list != [] && AllActive(s, list) && Distinct(list)
    requires OnlyItsRows(s, s1, list[0]) && OthersStay(s1, s', list[1..])
    ensures SameRows(s1, s', list[0])
  {
    var a := list[0];
    assert a in list;
    forall b | b in list[1..] ensures b in list && b != a {
      var i :| 0 <= i < |list[1..]| && list[1..][i] == b;
      assert list[i + 1] == b;
    }
    forall b | b in list[1..] && b in s1.attempts
      ensures s1.attempts[b].task != s1.attempts[a].task && s1.attempts[b].agent != s1.attempts[a].agent {
      ActiveApart(s, a, b);
    }
  }

  ghost predicate AllLapse(s: Db, s': Db, list: seq<Id>, now: real) {
    forall a | a in list :: Lapses(s, s', a, now)
  }

  /** One turn of the loop. */
  ghost predicate Turn(s: Db, s1: Db, list: seq<Id>, now: real) {
    && list != [] && AllActive(s, list) && Distinct(list)
    && Fenced(s.tasks, s.attempts, s.leases) && AgentsEngaged(s.tasks, s.attempts, s.agents)
    && Lapses(s, s1, list[0], now) && OnlyItsRows(s, s1, list[0]) && s1.executions == s.executions
  }

  lemma TurnLapses(s: Db, s1: Db, s': Db, list: seq<Id>, now: real)
    requires Turn(s, s1, list, now) && OthersStay(s1, s', list[1..]) && AllLapse(s1, s', list[1..], now)
    ensures AllLapse(s, s', list, now)
  {
    FirstStays(s, s1, s', list);
    LapsesLater(s, s1, s', list[0], now);
    assert list[0] in list;
    forall a | a in list && a != list[0] ensures Lapses(s, s', a, now) {
      OthersSame(s, s1, list[0], a);
      LapsesEarlier(s, s1, s', a, now);
    }
  }

  lemma ExpireTurn(s: Db, list: seq<Id>, drawn: Drawn, now: real)
    requires Inv(s) && list != [] && AllActive(s, list) && Distinct(list)
    requires list[0] in s.attempts && s.attempts[list[0]].task in s.tasks && ExpireOne(s, list[0], drawn, now).Ok?
    ensures Turn(s, ExpireOne(s, list[0], drawn, now).value, list, now)
  {
    assert list[0] in list;
    InvRipe(s, list[0]);
    OwnUnique(s, list[0]);
    ExpireOneLapses(s, list[0], drawn, now);
  }

  lemma ExpireNext(s: Db, list: seq<Id>, drawn: Drawn, now: real)
    requires Lawful(s) && list != [] && AllActive(s, list) && Distinct(list)
    ensures list[0] in s.attempts && s.attempts[list[0]].task in s.tasks
    ensures ExpireOne(s, list[0], drawn, now).Ok? ==>
      var s1 := ExpireOne(s, list[0], drawn, now).value;
      Lawful(s1) && AllActive(s1, list[1..]) && Distinct(list[1..]) && Turn(s, s1, list, now)
  {
    LawfulIff(s);
    ExpireFirst(s, list, drawn, now);
    if ExpireOne(s, list[0], drawn, now).Ok? {
      ExpireTurn(s, list, drawn, now);
      LawfulIff(ExpireOne(s, list[0], drawn, now).value);
    }
  }

  lemma {:induction false} ExpireEachLapses(s: Db, list: seq<Id>, k: nat, draw: nat -> Drawn, now: real)
    requires Lawful(s) && AllActive(s, list) && Distinct(list) && ExpireEach(s, list, k, draw, now).Ok?
    ensures OthersStay(s, ExpireEach(s, list, k, draw, now).value, list)
    ensures AllLapse(s, ExpireEach(s, list, k, draw, now).value, list, now)
    decreases |list|
  {
    if list != [] {
      ExpireNext(s, list, draw(k), now);
      ExpireStep(s, list, k, draw, now);
      var s1 := ExpireOne(s, list[0], draw(k), now).value;
      ExpireEachLapses(s1, list[1..], k + 1, draw, now);
      var s' := ExpireEach(s1, list[1..], k + 1, draw, now).value;
      StayTogether(s, s1, s', list);
      TurnLapses(s, s1, s', list, now);
    }
  }

  /** ACTIVE and run out, or ACTIVE and never started when those are recovered too. */
  ghost predicate Overdue(s: Db, a: Id, unstarted: bool, now: real) {
    && a in s.leases && s.leases[a].state == LeaseState.Active
    && (s.leases[a].expires <= now || (unstarted && forall x | x in s.executions :: s.executions[x].attempt != a))
  }

  lemma OverdueIs(s: Db, a: Id, unstarted: bool, now: real)
    ensures Overdue(s, a, unstarted, now) <==> a in Listing(LapsedRows(s, unstarted, now))
  {
    assert a in Listing(LapsedRows(s, unstarted, now)) <==> a in LapsedRows(s, unstarted, now);
    assert ExecutionsOf(s.executions, a) == {} <==> forall x | x in s.executions :: s.executions[x].attempt != a by {
      if x :| x in s.executions && s.executions[x].attempt == a {
        assert x in ExecutionsOf(s.executions, a);
      }
    }
  }

  /** Rows that belong to no overdue attempt are as they were. */
  ghost predicate RestStays(s: Db, s': Db, unstarted: bool, now: real) {
    && s'.executions == s.executions
    && (forall a | a in s.attempts && !Overdue(s, a, unstarted, now) ::
          a in s'.attempts && s'.attempts[a] == s.attempts[a])
    && (forall a | a in s.leases && !Overdue(s, a, unstarted, now) :: a in s'.leases && s'.leases[a] == s.leases[a])
    && (forall t | t in s.tasks && (forall a | a in s.attempts && Overdue(s, a, unstarted, now) ::
                                      s.attempts[a].task != t) :: t in s'.tasks && s'.tasks[t] == s.tasks[t])
    && (forall g | g in s.agents && (forall a | a in s.attempts && Overdue(s, a, unstarted, now) ::
                                       s.attempts[a].agent != g) :: g in s'.agents && s'.agents[g] == s.agents[g])
  }

  ghost predicate NothingOverdue(s: Db, now: real) {
    forall a | a in s.leases && s.leases[a].state == LeaseState.Active :: s.leases[a].expires > now
  }

  lemma ListedStays(s: Db, s': Db, list: seq<Id>, unstarted: bool, now: real)
    requires OthersStay(s, s', list) && forall a :: Overdue(s, a, unstarted, now) <==> a in list
    ensures RestStays(s, s', unstarted, now)
  {
  }

  lemma ListedLapses(s: Db, s': Db, list: seq<Id>, unstarted: bool, now: real)
    requires OthersStay(s, s', list) && AllLapse(s, s', list, now)
    requires forall a :: Overdue(s, a, unstarted, now) <==> a in list
    ensures NothingOverdue(s', now)
  {
    forall a | a in s'.leases && s'.leases[a].state == LeaseState.Active ensures s'.leases[a].expires > now {
      assert a in list ==> Lapses(s, s', a, now);
      assert a !in list ==> !Overdue(s, a, unstarted, now);
    }
  }

  /** Exactly the overdue attempts end, each as a lost execution. */
  ghost predicate Expired(s: Db, s': Db, unstarted: bool, now: real) {
    && (forall a | Overdue(s, a, unstarted, now) :: Lapses(s, s', a, now))
    && RestStays(s, s', unstarted, now) && NothingOverdue(s', now)
  }

  lemma OverdueLapse(s: Db, unstarted: bool, draw: nat -> Drawn, now: real)
    requires Lawful(s) && Fenced(s.tasks, s.attempts, s.leases) && ExpireLeases(s, unstarted, draw, now).Ok?
    ensures Expired(s, ExpireLeases(s, unstarted, draw, now).value, unstarted, now)
  {
    var list := Listing(LapsedRows(s, unstarted, now));
    var s' := ExpireLeases(s, unstarted, draw, now).value;
    LapsedActive(s, unstarted, now);
    ExpireEachLapses(s, list, 0, draw, now);
    forall a ensures Overdue(s, a, unstarted, now) <==> a in list {
      OverdueIs(s, a, unstarted, now);
    }
    ListedStays(s, s', list, unstarted, now);
    ListedLapses(s, s', list, unstarted, now);
  }

  /** Expiry ends exactly the overdue attempts, each as a lost execution; rows of the others
      stay, and no ACTIVE lease is left that has run out. */
  lemma ExpiryEnds(s: Db, unstarted: bool, draw: nat -> Drawn, now: real)
    requires Inv(s) && ExpireLeases(s, unstarted, draw, now).Ok?
    ensures Expired(s, ExpireLeases(s, unstarted, draw, now).value, unstarted, now)
  {
    LawfulIff(s);
    OverdueLapse(s, unstarted, draw, now);
  }
}
