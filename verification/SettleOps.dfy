/** ack, nack and lease expiry keep the whole invariant. */
module SettleOps {
  import opened Options
  import opened RowOrder
  import opened Tables
  import opened Topology
  import opened Work
  import opened Invariants
  import opened TopologyProofs
  import opened ReshapeProofs
  import opened QuietOps
  import opened Closing
  import opened Settlement
  import opened History

  // ---------------------------------------------------------------- the execution of an attempt

  /** The looked-up execution is the only one of its attempt. */
  ghost predicate TheExecution(executions: map<Id, Execution>, a: Id, x: Option<Id>) {
    && (x.Some? ==> x.value in executions && executions[x.value].attempt == a)
    && forall y | y in executions && executions[y].attempt == a :: x == Some(y)
  }

  lemma LookupUnique(s: Db, a: Id, supplied: Option<Id>)
    requires Physical(s.executions, s.attempts, s.incarnations) && ExecutionFor(s, a, supplied).Ok?
    ensures TheExecution(s.executions, a, ExecutionFor(s, a, supplied).value)
  {
    var x := ExecutionFor(s, a, supplied).value;
    if x.Some? {
      assert x.value in ExecutionsOf(s.executions, a);
    }
    forall y | y in s.executions && s.executions[y].attempt == a ensures x == Some(y) {
      assert y in ExecutionsOf(s.executions, a);
    }
  }

  lemma OwnUnique(s: Db, a: Id)
    requires Physical(s.executions, s.attempts, s.incarnations)
    ensures TheExecution(s.executions, a, ExecutionOf(s.executions, a))
  {
    LookupUnique(s, a, None);
  }

  lemma MarkMarks(s: Db, a: Id, x: Option<Id>, state: ExecutionState, terminal: bool, quiescent: bool,
                  incs: map<Id, Incarnation>)
    requires TheExecution(s.executions, a, x) && IncsKept(s.incarnations, incs)
    requires x.Some? ==> !s.executions[x.value].(state := state).Live() || s.executions[x.value].Live()
    ensures Marked(s, MarkExecution(s, x, state, terminal, quiescent).(incarnations := incs), a)
  {
  }

  lemma SafeAfterMark(s: Db, a: Id, x: Option<Id>, state: ExecutionState, terminal: bool, quiescent: bool,
                      incs: map<Id, Incarnation>)
    requires a in s.attempts && s.attempts[a].task in s.tasks
    requires TheExecution(s.executions, a, x) && WriterSafe(s, s.attempts[a].task, x, quiescent)
    ensures Safe(MarkExecution(s, x, state, terminal, quiescent).(incarnations := incs), a)
  {
  }

  // ---------------------------------------------------------------- nack

  lemma FailedMarks(s: Db, a: Id, x: Option<Id>, report: Report)
    requires a in s.attempts && s.attempts[a].task in s.tasks && TheExecution(s.executions, a, x)
    requires x.Some? ==> s.executions[x.value].Live()
    ensures Marked(s, FailedRows(s, a, x, report), a)
    ensures WriterSafe(s, s.attempts[a].task, x, report.quiescent) ==> Safe(FailedRows(s, a, x, report), a)
  {
    var state := if report.terminal then ExecutionState.Failed else ExecutionState.Unknown;
    var seen := if report.cause.ExecutionLost? then ExecutionState.Lost else ExecutionState.Failed;
    var incs := Presence(s.incarnations, s.attempts[a].incarnation, seen, report.terminal, report.quiescent,
                         report.reusable);
    PresenceKept(s.incarnations, s.attempts[a].incarnation, seen, report.terminal, report.quiescent, report.reusable);
    MarkMarks(s, a, x, state, report.terminal, report.quiescent, incs);
    if WriterSafe(s, s.attempts[a].task, x, report.quiescent) {
      SafeAfterMark(s, a, x, state, report.terminal, report.quiescent, incs);
    }
  }

  lemma SettleInv(s: Db, s2: Db, a: Id, attempt: AttemptState, onRetry: LeaseState, onStop: LeaseState,
                  verdict: Verdict,
                  drawn: Drawn, now: real)
    requires Inv(s) && Marked(s, s2, a) && a in s.attempts && s.attempts[a].state.Active?
      && s.attempts[a].task in s.tasks
    requires !attempt.Active? && !onRetry.Active? && !onStop.Active?
    requires verdict != Stop(WriterQuiescenceUnknown) ==> Safe(s2, a)
    requires verdict.RetryAt? ==> s.attempts[a].number < s.tasks[s.attempts[a].task].maxAttempts
    requires Settle(s2, a, attempt, onRetry, onStop, verdict, drawn, now).Ok?
    ensures Inv(Settle(s2, a, attempt, onRetry, onStop, verdict, drawn, now).value)
    ensures Settled(s, Settle(s2, a, attempt, onRetry, onStop, verdict, drawn, now).value, a)
  {
    match verdict
    case RetryAt(eligible) => RetryInv(s, s2, a, attempt, onRetry, eligible, now);
    case Stop(cause) => SuspendInv(s, s2, a, attempt, onStop, cause, drawn, now);
  }

  lemma NackSettles(s: Db, a: Id, epoch: nat, supplied: Option<Id>, report: Report, drawn: Drawn, at: real, now: real)
    requires Nack(s, a, epoch, supplied, report, drawn, at, now).Ok?
    ensures Authority(s, a, epoch, now) && ExecutionFor(s, a, supplied).Ok?
    ensures var x := ExecutionFor(s, a, supplied).value;
      x.Some? ==> x.value in s.executions && s.executions[x.value].Live()
    ensures Nack(s, a, epoch, supplied, report, drawn, at, now)
      == Settle(FailedRows(s, a, ExecutionFor(s, a, supplied).value, report), a, AttemptState.Failed,
                LeaseState.Released, LeaseState.Revoked,
                Judge(s.tasks[s.attempts[a].task], report.cause, s.attempts[a].number,
                      WriterSafe(s, s.attempts[a].task, ExecutionFor(s, a, supplied).value, report.quiescent), at),
                        drawn, at)
  {
  }

  lemma NackInv(s: Db, a: Id, epoch: nat, supplied: Option<Id>, report: Report, drawn: Drawn, at: real, now: real)
    requires Inv(s) && Nack(s, a, epoch, supplied, report, drawn, at, now).Ok?
    ensures Inv(Nack(s, a, epoch, supplied, report, drawn, at, now).value)
    ensures Evolves(s, Nack(s, a, epoch, supplied, report, drawn, at, now).value, now, None, None)
  {
    NackSettles(s, a, epoch, supplied, report, drawn, at, now);
    LookupUnique(s, a, supplied);
    var x := ExecutionFor(s, a, supplied).value;
    FailedMarks(s, a, x, report);
    var t := s.attempts[a].task;
    SettleInv(s, FailedRows(s, a, x, report), a, AttemptState.Failed, LeaseState.Released, LeaseState.Revoked,
              Judge(s.tasks[t], report.cause, s.attempts[a].number, WriterSafe(s, t, x, report.quiescent), at), drawn,
                at);
    SettledEvolves(s, Nack(s, a, epoch, supplied, report, drawn, at, now).value, a, now);
  }

  // ---------------------------------------------------------------- expiry

  lemma ExpireMarks(s: Db, a: Id)
    requires a in s.attempts && s.attempts[a].task in s.tasks
      && TheExecution(s.executions, a, ExecutionOf(s.executions, a))
    ensures var s1 := ExpiredRows(s, a);
      Marked(s, s1, a) && (ExpiresSafely(s, a) ==> Safe(s1, a))
  {
  }

  lemma ExpireSettles(s: Db, a: Id, drawn: Drawn, now: real)
    requires a in s.attempts && s.attempts[a].task in s.tasks
    ensures ExpireOne(s, a, drawn, now)
      == Settle(ExpiredRows(s, a), a,
                AttemptState.Expired, LeaseState.Expired, LeaseState.Expired,
                Judge(s.tasks[s.attempts[a].task], ExecutionLost, s.attempts[a].number, ExpiresSafely(s, a), now),
                  drawn, now)
  {
  }

  lemma ExpireOneInv(s: Db, a: Id, drawn: Drawn, now: real)
    requires Inv(s) && a in s.attempts && s.attempts[a].state.Active? && s.attempts[a].task in s.tasks
    requires ExpireOne(s, a, drawn, now).Ok?
    ensures Inv(ExpireOne(s, a, drawn, now).value)
    ensures Settled(s, ExpireOne(s, a, drawn, now).value, a)
  {
    OwnUnique(s, a);
    ExpireSettles(s, a, drawn, now);
    ExpireMarks(s, a);
    SettleInv(s, ExpiredRows(s, a), a,
              AttemptState.Expired, LeaseState.Expired, LeaseState.Expired,
              Judge(s.tasks[s.attempts[a].task], ExecutionLost, s.attempts[a].number, ExpiresSafely(s, a), now),
                drawn, now);
  }

  ghost predicate AllActive(s: Db, list: seq<Id>) {
    forall a | a in list :: a in s.attempts && s.attempts[a].state.Active?
  }

  lemma OthersActive(s: Db, s': Db, list: seq<Id>)
    requires list != [] && AllActive(s, list) && Distinct(list) && AttemptClosed(s.attempts, s'.attempts, list[0])
    ensures AllActive(s', list[1..]) && Distinct(list[1..])
  {
    forall a | a in list[1..] ensures a in s'.attempts && s'.attempts[a].state.Active? {
      var i :| 0 <= i < |list[1..]| && list[1..][i] == a;
      assert list[0] != list[i + 1];
      assert list[i + 1] in list;
    }
  }

  lemma ExpireStep(s: Db, list: seq<Id>, k: nat, draw: nat -> Drawn, now: real)
    requires list != [] && list[0] in s.attempts && s.attempts[list[0]].task in s.tasks
      && ExpireEach(s, list, k, draw, now).Ok?
    ensures ExpireOne(s, list[0], draw(k), now).Ok?
    ensures ExpireEach(s, list, k, draw, now)
      == ExpireEach(ExpireOne(s, list[0], draw(k), now).value, list[1..], k + 1, draw, now)
  {
  }

  lemma ExpireFirst(s: Db, list: seq<Id>, drawn: Drawn, now: real)
    requires Inv(s) && list != [] && AllActive(s, list) && Distinct(list)
    ensures list[0] in s.attempts && s.attempts[list[0]].task in s.tasks
    ensures ExpireOne(s, list[0], drawn, now).Ok? ==>
      var s1 := ExpireOne(s, list[0], drawn, now).value;
      Inv(s1) && AllActive(s1, list[1..]) && Distinct(list[1..]) && Evolves(s, s1, now, None, None)
  {
    assert list[0] in list;
    ActiveAttempt(s, list[0]);
    if ExpireOne(s, list[0], drawn, now).Ok? {
      ExpireOneInv(s, list[0], drawn, now);
      OthersActive(s, ExpireOne(s, list[0], drawn, now).value, list);
      SettledEvolves(s, ExpireOne(s, list[0], drawn, now).value, list[0], now);
    }
  }

  lemma {:induction false} ExpireEachInv(s: Db, list: seq<Id>, k: nat, draw: nat -> Drawn, now: real)
    requires Inv(s) && AllActive(s, list) && Distinct(list) && ExpireEach(s, list, k, draw, now).Ok?
    ensures Inv(ExpireEach(s, list, k, draw, now).value)
      && Evolves(s, ExpireEach(s, list, k, draw, now).value, now, None, None)
    decreases |list|
  {
    if list == [] {
      EvolvesSelf(s, now, None, None);
    } else {
      ExpireFirst(s, list, draw(k), now);
      ExpireStep(s, list, k, draw, now);
      var s1 := ExpireOne(s, list[0], draw(k), now).value;
      ExpireEachInv(s1, list[1..], k + 1, draw, now);
      EvolvesTrans(s, s1, ExpireEach(s1, list[1..], k + 1, draw, now).value, now);
    }
  }

  lemma LapsedActive(s: Db, unstarted: bool, now: real)
    requires Fenced(s.tasks, s.attempts, s.leases)
    ensures AllActive(s, Listing(LapsedRows(s, unstarted, now))) && Distinct(Listing(LapsedRows(s, unstarted, now)))
  {
    ListingDistinct(LapsedRows(s, unstarted, now));
    forall a | a in Listing(LapsedRows(s, unstarted, now)) ensures a in s.attempts && s.attempts[a].state.Active? {
      assert a in LapsedRows(s, unstarted, now);
      assert AttemptFenced(s.tasks, s.attempts[a], s.leases[a], a);
    }
  }

  lemma ExpireInv(s: Db, unstarted: bool, draw: nat -> Drawn, now: real)
    requires Inv(s) && ExpireLeases(s, unstarted, draw, now).Ok?
    ensures Inv(ExpireLeases(s, unstarted, draw, now).value)
      && Evolves(s, ExpireLeases(s, unstarted, draw, now).value, now, None, None)
  {
    LapsedActive(s, unstarted, now);
    ExpireEachInv(s, Listing(LapsedRows(s, unstarted, now)), 0, draw, now);
  }

  // ---------------------------------------------------------------- completion

  lemma FinishedMarks(s: Db, a: Id, x: Option<Id>, quiescent: bool, reusable: bool)
    requires a in s.attempts && s.attempts[a].task in s.tasks && TheExecution(s.executions, a, x)
    ensures Marked(s, FinishedRows(s, a, x, quiescent, reusable), a)
    ensures WriterSafe(s, s.attempts[a].task, x, quiescent) ==> Safe(FinishedRows(s, a, x, quiescent, reusable), a)
  {
    var incs := Presence(s.incarnations, s.attempts[a].incarnation, ExecutionState.Succeeded, true, quiescent,
                         reusable);
    PresenceKept(s.incarnations, s.attempts[a].incarnation, ExecutionState.Succeeded, true, quiescent, reusable);
    MarkMarks(s, a, x, ExecutionState.Succeeded, true, quiescent, incs);
    if WriterSafe(s, s.attempts[a].task, x, quiescent) {
      SafeAfterMark(s, a, x, ExecutionState.Succeeded, true, quiescent, incs);
    }
  }

  lemma CompletedResults(tasks: map<Id, Task>, tasks': map<Id, Task>, results: map<Id, Result>, r: Id, row: Result,
                         t: Id)
    requires TaskClosed(tasks, tasks', t) && tasks[t].Held() && tasks'[t].state.Completed?
      && ResultsMatch(tasks, results)
    requires r !in results && row.task == t
    ensures ResultsMatch(tasks', results[r := row])
  {
    var results' := results[r := row];
    forall u | u in tasks && u != t ensures tasks'[u].state.Completed? <==> tasks[u].state.Completed? {
      assert RowBeside(tasks[u], tasks'[u]);
    }
    forall u | u in tasks' && tasks'[u].state.Completed? ensures exists q :: q in results' && results'[q].task == u {
      if u == t {
        assert r in results' && results'[r].task == t;
      } else {
        var q :| q in results && results[q].task == u;
        assert q in results' && results'[q].task == u;
      }
    }
  }

  lemma CompletedTouches(tasks: map<Id, Task>, t: Id)
    requires t in tasks
    ensures BatchTouched(tasks, ReleaseDependencies(Completing(tasks, t), tasks[t].batch), tasks[t].batch)
  {
  }

  /** Everything a completion writes, seen from before it. */
  ghost predicate CompletedShaped(s0: Db, s: Db, s': Db, a: Id, r: Id, notice: Id) {
    && Closes(s0, s', a) && s'.executions == s.executions && s'.escalations == s0.escalations
    && !s'.agents[s0.attempts[a].agent].state.Suspended?
    && var t := s0.attempts[a].task;
    var b := s0.tasks[t].batch;
    && s'.tasks == ReleaseDependencies(Completing(s0.tasks, t), b)
    && r !in s0.results && r in s'.results && s'.results == s0.results[r := s'.results[r]] && s'.results[r].task == t
    && b in s0.batches && s'.batches == s0.batches[b := BatchNext(s'.tasks, b)]
    && (AllCompleted(s'.tasks, b) ==> notice !in s0.outbox)
    && s'.outbox == if AllCompleted(s'.tasks, b) then s0.outbox[notice := BatchResultsReady(b)] else s0.outbox
  }

  lemma CompletedBatches(s0: Db, s: Db, s': Db, a: Id, r: Id, notice: Id)
    requires CompletedShaped(s0, s, s', a, r, notice) && s0.tasks[s0.attempts[a].task].Held()
    requires BatchesAgree(s0.tasks, s0.batches) && NoticesMatch(s0.tasks, s0.batches, s0.outbox)
    ensures BatchesAgree(s'.tasks, s'.batches) && NoticesMatch(s'.tasks, s'.batches, s'.outbox)
  {
    var t := s0.attempts[a].task;
    var b := s0.tasks[t].batch;
    CompletedTouches(s0.tasks, t);
    RecomputedBatches(s0.tasks, s'.tasks, s0.batches, b);
    RecomputedNotices(s0.tasks, s'.tasks, s0.batches, s0.outbox, b, notice);
  }

  lemma CompletedTasks(s0: Db, s: Db, s': Db, a: Id, r: Id, notice: Id)
    requires CompletedShaped(s0, s, s', a, r, notice) && s0.tasks[s0.attempts[a].task].Held()
    requires DepsSettled(s0.tasks) && ResultsMatch(s0.tasks, s0.results)
    ensures DepsSettled(s'.tasks) && ResultsMatch(s'.tasks, s'.results)
  {
    var t := s0.attempts[a].task;
    CompletedDeps(s0.tasks, t);
    CompletedResults(s0.tasks, s'.tasks, s0.results, r, s'.results[r], t);
  }

  lemma CompletedWriters(s0: Db, s: Db, s': Db, a: Id, r: Id, notice: Id)
    requires Marked(s0, s, a) && CompletedShaped(s0, s, s', a, r, notice) && Safe(s, a)
    requires s0.tasks[s0.attempts[a].task].Held() && Engaged(s0.agents[s0.attempts[a].agent])
    requires Escalated(s0.tasks, s0.agents, s0.escalations)
    ensures HoldsKept(s0.escalations, s'.escalations)
    ensures WriterSettled(s'.tasks, s'.executions, s'.escalations, a, s0.attempts[a].task)
    ensures Escalated(s'.tasks, s'.agents, s'.escalations)
  {
    RetrySafe(s0, s, s', a);
    ClosedEscalated(s0.tasks, s'.tasks, s0.agents, s'.agents, s0.escalations, s0.attempts[a].task,
                    s0.attempts[a].agent);
  }

  lemma CompletedEnds(s0: Db, s: Db, s': Db, a: Id, r: Id, notice: Id)
    requires Inv(s0) && Marked(s0, s, a) && CompletedShaped(s0, s, s', a, r, notice) && Safe(s, a)
    ensures WellEnded(s0, s', a)
  {
    ActiveAttempt(s0, a);
    CompletedWriters(s0, s, s', a, r, notice);
    CompletedTasks(s0, s, s', a, r, notice);
    CompletedBatches(s0, s, s', a, r, notice);
  }

  // Shape of the completed rows.

  lemma CompletedRowsShape(s0: Db, s: Db, a: Id, result: Id)
    requires Marked(s0, s, a) && Closable(s0, a)
    ensures var s1 := CompletedRows(s, a, result);
      && AttemptClosed(s0.attempts, s1.attempts, a) && LeaseClosed(s0.leases, s1.leases, a)
      && s1.tasks == Completing(s0.tasks, s0.attempts[a].task) && result in s1.results
      && s1.results == s0.results[result := s1.results[result]] && s1.results[result].task == s0.attempts[a].task
      && s1 == s0.(attempts := s1.attempts, leases := s1.leases, tasks := s1.tasks, executions := s.executions,
                   incarnations := s.incarnations, results := s1.results)
  {
    RowsClose(s0, s, a, AttemptState.Succeeded, LeaseState.Released, TaskState.Completed, None);
  }

  lemma FinishShape(s: Db, g: Id, b: Id, notice: Id, now: real)
    requires g in s.agents && s.agents[g].partition in s.partitions && FinishTask(s, g, b, notice, now).Ok?
    requires b in s.batches && !s.batches[b].Cancelled? && !s.batches[b].Completed?
    ensures var s' := FinishTask(s, g, b, notice, now).value;
      && Frees(s, s'.(tasks := s.tasks, batches := s.batches, outbox := s.outbox), g)
      && s'.tasks == ReleaseDependencies(s.tasks, b)
      && s'.batches == s.batches[b := BatchNext(s'.tasks, b)]
      && (AllCompleted(s'.tasks, b) ==> notice !in s.outbox)
      && s'.outbox == if AllCompleted(s'.tasks, b) then s.outbox[notice := BatchResultsReady(b)] else s.outbox
  {
    ReleaseFrees(s, g, now);
    var s1 := ReleaseAgent(s, g, now).value;
    RecomputeValue(s1.(tasks := ReleaseDependencies(s1.tasks, b)), b, notice);
  }

  lemma CompletedShape(s0: Db, s: Db, a: Id, r: Id, notice: Id, now: real)
    requires Marked(s0, s, a) && Suspendable(s0, a) && r !in s0.results
    requires FinishTask(CompletedRows(s, a, r), s0.attempts[a].agent, s0.tasks[s0.attempts[a].task].batch, notice,
                        now).Ok?
    ensures CompletedShaped(s0, s, FinishTask(CompletedRows(s, a, r), s0.attempts[a].agent,
                                              s0.tasks[s0.attempts[a].task].batch, notice, now).value, a, r, notice)
  {
    var t := s0.attempts[a].task;
    CompletedRowsShape(s0, s, a, r);
    FinishShape(CompletedRows(s, a, r), s0.attempts[a].agent, s0.tasks[t].batch, notice, now);
    CompletedCloses(s0.tasks, t);
  }

  lemma CompleteInv(s0: Db, s: Db, a: Id, r: Id, notice: Id, now: real)
    requires Inv(s0) && Marked(s0, s, a) && a in s0.attempts && s0.attempts[a].state.Active?
      && s0.attempts[a].task in s0.tasks
    requires Safe(s, a) && r !in s0.results
    requires FinishTask(CompletedRows(s, a, r), s0.attempts[a].agent, s0.tasks[s0.attempts[a].task].batch, notice,
                        now).Ok?
    ensures Inv(FinishTask(CompletedRows(s, a, r), s0.attempts[a].agent, s0.tasks[s0.attempts[a].task].batch, notice,
                           now).value)
    ensures Settled(s0,
                    FinishTask(CompletedRows(s, a, r), s0.attempts[a].agent, s0.tasks[s0.attempts[a].task].batch,
                               notice, now).value, a)
  {
    InvSuspendable(s0, a);
    CompletedShape(s0, s, a, r, notice, now);
    ShapedCompleteInv(s0, s, FinishTask(CompletedRows(s, a, r), s0.attempts[a].agent,
                                        s0.tasks[s0.attempts[a].task].batch, notice, now).value, a, r, notice);
  }

  lemma ShapedCompleteSettled(s0: Db, s: Db, s': Db, a: Id, r: Id, notice: Id)
    requires CompletedShaped(s0, s, s', a, r, notice) && s0.tasks[s0.attempts[a].task].Held()
    ensures Settled(s0, s', a)
  {
  }

  lemma ShapedCompleteInv(s0: Db, s: Db, s': Db, a: Id, r: Id, notice: Id)
    requires Inv(s0) && Marked(s0, s, a) && CompletedShaped(s0, s, s', a, r, notice) && Safe(s, a)
    ensures Inv(s') && Settled(s0, s', a)
  {
    ActiveAttempt(s0, a);
    ShapedCompleteSettled(s0, s, s', a, r, notice);
    CompletedEnds(s0, s, s', a, r, notice);
    ClosesInv(s0, s', a);
  }

  lemma AckCompletes(s: Db, a: Id, x: Option<Id>, capsule: Capsule, quiescent: bool, reusable: bool, drawn: Drawn,
                     now: real)
    requires a in s.attempts && s.attempts[a].task in s.tasks
    requires AckCompleted(s, a, x, capsule, quiescent, reusable, drawn, now).Ok?
    ensures PromoteVersion(s, s.attempts[a].agent, capsule).Ok? && drawn.result !in s.results
    ensures var s1 := PromoteVersion(s, s.attempts[a].agent, capsule).value;
      && s1 == s.(agents := s1.agents)
      && AckCompleted(s, a, x, capsule, quiescent, reusable, drawn, now)
         == FinishTask(CompletedRows(FinishedRows(s1, a, x, quiescent, reusable), a, drawn.result),
                       s.attempts[a].agent, s.tasks[s.attempts[a].task].batch, drawn.notice, now)
  {
  }

  lemma VersionInv(s: Db, g: Id, capsule: Capsule)
    requires Inv(s) && PromoteVersion(s, g, capsule).Ok?
    ensures var s' := PromoteVersion(s, g, capsule).value;
      Inv(s') && Reshaped(s, s') && s'.executions == s.executions && s'.attempts == s.attempts && s'.tasks == s.tasks
  {
    InvAgentsOk(s);
    VersionMoves(s, g, capsule);
    MovedInv(s, PromoteVersion(s, g, capsule).value);
  }

  lemma AckCompletedInv(s: Db, a: Id, x: Option<Id>, capsule: Capsule, quiescent: bool, reusable: bool, drawn: Drawn,
                        now: real)
    requires Inv(s) && a in s.attempts && s.attempts[a].state.Active? && s.attempts[a].task in s.tasks
    requires TheExecution(s.executions, a, x) && WriterSafe(s, s.attempts[a].task, x, quiescent)
    requires AckCompleted(s, a, x, capsule, quiescent, reusable, drawn, now).Ok?
    ensures Inv(AckCompleted(s, a, x, capsule, quiescent, reusable, drawn, now).value)
    ensures Evolves(s, AckCompleted(s, a, x, capsule, quiescent, reusable, drawn, now).value, now, None, None)
  {
    AckCompletes(s, a, x, capsule, quiescent, reusable, drawn, now);
    var s1 := PromoteVersion(s, s.attempts[a].agent, capsule).value;
    VersionInv(s, s.attempts[a].agent, capsule);
    FinishedMarks(s1, a, x, quiescent, reusable);
    CompleteInv(s1, FinishedRows(s1, a, x, quiescent, reusable), a, drawn.result, drawn.notice, now);
    PromotedEvolves(s, s1, AckCompleted(s, a, x, capsule, quiescent, reusable, drawn, now).value, a, now);
  }

  lemma PromotedEvolves(s: Db, s1: Db, s': Db, a: Id, now: real)
    requires Reshaped(s, s1) && Settled(s1, s', a)
    ensures Evolves(s, s', now, None, None)
  {
    ReshapedEvolves(s, s1, now);
    SettledEvolves(s1, s', a, now);
    EvolvesTrans(s, s1, s', now);
  }

  lemma AckCases(s: Db, a: Id, epoch: nat, supplied: Option<Id>, capsule: Capsule, quiescent: bool, reusable: bool,
                 drawn: Drawn, now: real)
    requires AckSuccess(s, a, epoch, supplied, capsule, quiescent, reusable, drawn, now).Ok?
    ensures Authority(s, a, epoch, now) && ExecutionFor(s, a, supplied).Ok?
    ensures var x := ExecutionFor(s, a, supplied).value;
      AckSuccess(s, a, epoch, supplied, capsule, quiescent, reusable, drawn, now)
      == if WriterSafe(s, s.attempts[a].task, x, quiescent)
         then AckCompleted(s, a, x, capsule, quiescent, reusable, drawn, now)
         else CloseSuspended(FinishedRows(s, a, x, false, false), a, AttemptState.Failed, LeaseState.Revoked,
                             WriterQuiescenceUnknown, drawn, now)
  {
  }

  lemma AckInv(s: Db, a: Id, epoch: nat, supplied: Option<Id>, capsule: Capsule, quiescent: bool, reusable: bool,
               drawn: Drawn, now: real)
    requires Inv(s) && AckSuccess(s, a, epoch, supplied, capsule, quiescent, reusable, drawn, now).Ok?
    ensures Inv(AckSuccess(s, a, epoch, supplied, capsule, quiescent, reusable, drawn, now).value)
    ensures Evolves(s, AckSuccess(s, a, epoch, supplied, capsule, quiescent, reusable, drawn, now).value, now, None,
                    None)
  {
    AckCases(s, a, epoch, supplied, capsule, quiescent, reusable, drawn, now);
    LookupUnique(s, a, supplied);
    var x := ExecutionFor(s, a, supplied).value;
    if WriterSafe(s, s.attempts[a].task, x, quiescent) {
      AckCompletedInv(s, a, x, capsule, quiescent, reusable, drawn, now);
    } else {
      FinishedMarks(s, a, x, false, false);
      SuspendInv(s, FinishedRows(s, a, x, false, false), a, AttemptState.Failed, LeaseState.Revoked,
                 WriterQuiescenceUnknown, drawn, now);
      SettledEvolves(s, AckSuccess(s, a, epoch, supplied, capsule, quiescent, reusable, drawn, now).value, a, now);
    }
  }
}
