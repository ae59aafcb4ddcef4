/** What the scheduler promises of every run. */
module Guarantees {
  import opened Options
  import opened RowOrder
  import opened Tables
  import opened Topology
  import opened Work
  import opened Invariants
  import opened History
  import opened Runs
  import opened TopologyProofs
  import opened ReshapeProofs
  import Safety
  import ResolveOps

  // ---------------------------------------------------------------- unique indexes

  /** One ACTIVE attempt per task and per agent, one attempt per number, one ACTIVE lease
      per task and one lease per epoch. */
  ghost predicate UniqueAuthority(s: Db) {
    && (forall a, b | a in s.attempts && b in s.attempts && s.attempts[a].state.Active? && s.attempts[b].state.Active?
          && (s.attempts[a].task == s.attempts[b].task || s.attempts[a].agent == s.attempts[b].agent) :: a == b)
    && (forall a, b | a in s.attempts && b in s.attempts && s.attempts[a].task == s.attempts[b].task
          && s.attempts[a].number == s.attempts[b].number :: a == b)
    && (forall a, b | a in s.leases && b in s.leases && s.leases[a].task == s.leases[b].task
          && (s.leases[a].epoch == s.leases[b].epoch || (s.leases[a].state.Active? && s.leases[b].state.Active?)) ::
            a == b)
  }

  /** One agent assigned to a task, one OPEN escalation per task, one writer hold per agent,
      one result per task, one execution per attempt and one live one per incarnation. */
  ghost predicate UniqueRows(s: Db) {
    && (forall g, h | g in s.agents && h in s.agents && s.agents[g].current.Some?
        && s.agents[g].current == s.agents[h].current ::
          g == h)
    && (forall k, j | k in s.escalations && j in s.escalations && s.escalations[k].state.Open?
        && s.escalations[j].state.Open?
          && s.escalations[k].task == s.escalations[j].task :: k == j)
    && (forall k, j | k in s.escalations && j in s.escalations && s.escalations[k].Hold() && s.escalations[j].Hold()
          && s.escalations[k].agent == s.escalations[j].agent :: k == j)
    && (forall q, r | q in s.results && r in s.results && s.results[q].task == s.results[r].task :: q == r)
    && UniqueExecutions(s.executions)
  }

  ghost predicate UniqueExecutions(executions: map<Id, Execution>) {
    && (forall x, y | x in executions && y in executions && executions[x].attempt == executions[y].attempt :: x == y)
    && (forall x, y | x in executions && y in executions && executions[x].Live() && executions[y].Live()
          && executions[x].incarnation == executions[y].incarnation :: x == y)
  }

  ghost predicate Unique(s: Db) {
    UniqueAuthority(s) && UniqueRows(s) && Generations(s.incarnations)
  }

  lemma AuthorityUnique(s: Db)
    requires Fenced(s.tasks, s.attempts, s.leases) && AgentsEngaged(s.tasks, s.attempts, s.agents)
    ensures UniqueAuthority(s)
  {
    forall a | a in s.attempts ensures AttemptFenced(s.tasks, s.attempts[a], s.leases[a], a) {
    }
  }

  lemma AssignmentUnique(s: Db, g: Id, h: Id)
    requires AgentsEngaged(s.tasks, s.attempts, s.agents)
    requires g in s.agents && h in s.agents && s.agents[g].current.Some? && s.agents[g].current == s.agents[h].current
    ensures g == h
  {
    assert AgentAssigned(s.tasks, s.attempts, s.agents[g], g);
    assert AgentAssigned(s.tasks, s.attempts, s.agents[h], h);
  }

  lemma RowsUnique(s: Db)
    requires AgentsEngaged(s.tasks, s.attempts, s.agents) && Escalated(s.tasks, s.agents, s.escalations)
    requires ResultsMatch(s.tasks, s.results) && Physical(s.executions, s.attempts, s.incarnations)
    ensures UniqueRows(s)
  {
    forall g, h | g in s.agents && h in s.agents && s.agents[g].current.Some?
      && s.agents[g].current == s.agents[h].current
      ensures g == h {
      AssignmentUnique(s, g, h);
    }
  }

  lemma InvUnique(s: Db)
    requires Inv(s)
    ensures UniqueAuthority(s) && UniqueRows(s)
  {
    AuthorityUnique(s);
    RowsUnique(s);
  }

  /** No agent ever has two incarnations of one generation. */
  lemma {:induction false} GenerationsHold(steps: seq<Step>)
    ensures Generations(Run(EMPTY, steps).incarnations)
  {
    if steps != [] {
      var n := |steps| - 1;
      GenerationsHold(steps[..n]);
      ReachableInv(steps[..n]);
      AfterEvolves(Run(EMPTY, steps[..n]), steps[n]);
    }
  }

  /** Every unique index of the schema holds in every reachable state. */
  lemma IndexesHold(steps: seq<Step>)
    ensures Unique(Run(EMPTY, steps))
  {
    ReachableInv(steps);
    InvUnique(Run(EMPTY, steps));
    GenerationsHold(steps);
  }

  // ------------------------------------------------- the one index that does refuse

  /** `create_execution` without its index on the attempt. */
  function Unindexed(s: Db, a: Id, epoch: nat, target: Id, isolated: bool, x: Id, drawn: Id, now: real): Outcome<Db> {
    var _ :- CheckAuthority(s, a, epoch, now);
    var placed :- ChooseIncarnation(s, a, target, drawn);
    if Busy(s.executions, placed.1) then Err(InvalidTransition)
    else if x in s.executions then Err(Integrity)
    else Ok(StartedRows(s, a, placed.0, placed.1, target, isolated, x))
  }

  /** Every check passes and only one_execution_per_attempt refuses. */
  predicate RefusedByIndex(s: Db, a: Id, epoch: nat, target: Id, isolated: bool, x: Id, drawn: Id, now: real) {
    && Unindexed(s, a, epoch, target, isolated, x, drawn, now).Ok?
    && CreateExecution(s, a, epoch, target, isolated, x, drawn, now) == Err(Integrity)
  }

  /** The attempt already has an execution that has ended. */
  predicate Spent(s: Db, a: Id) {
    && a in s.attempts && s.attempts[a].incarnation.Some? && !Busy(s.executions, s.attempts[a].incarnation.value)
    && ExecutionsOf(s.executions, a) != {}
  }

  /** The index alone refuses exactly a second execution, under a fresh id, for an attempt
      that still holds authority and whose first one has ended. */
  lemma IndexRefusesExactly(s: Db, a: Id, epoch: nat, target: Id, isolated: bool, x: Id, drawn: Id, now: real)
    requires Physical(s.executions, s.attempts, s.incarnations)
    ensures RefusedByIndex(s, a, epoch, target, isolated, x, drawn, now) <==>
      Authority(s, a, epoch, now) && Spent(s, a) && x !in s.executions
  {
    if a in s.attempts && ExecutionsOf(s.executions, a) != {} {
      var y :| y in ExecutionsOf(s.executions, a);
      assert ExecutionPhysical(s.executions[y], s.attempts);
    }
  }

  /** Without it the attempt would have two executions. */
  lemma IndexNeeded(s: Db, a: Id, epoch: nat, target: Id, isolated: bool, x: Id, drawn: Id, now: real)
    requires RefusedByIndex(s, a, epoch, target, isolated, x, drawn, now)
    ensures !Unique(Unindexed(s, a, epoch, target, isolated, x, drawn, now).value)
  {
    var executions := Unindexed(s, a, epoch, target, isolated, x, drawn, now).value.executions;
    var y :| y in ExecutionsOf(s.executions, a);
    assert executions[x].attempt == a && executions[y].attempt == a && x != y;
  }

  /** Such calls exist: the adapter reports that the work failed while the attempt still
      holds its lease, and the worker starts again. */
  lemma FailedThenRestarted(s: Db, a: Id, epoch: nat, y: Id, terminal: bool, quiescent: bool, target: Id,
                            isolated: bool,
                            x: Id, drawn: Id, now: real)
    requires Reachable(s) && Authority(s, a, epoch, now) && y in s.executions && s.executions[y].attempt == a
      && s.executions[y].Live()
    requires x !in s.executions
    ensures var r := RecordPhysicalOutcome(s, y, ExecutionState.Failed, terminal, quiescent);
      r.Ok? && RefusedByIndex(r.value, a, epoch, target, isolated, x, drawn, now)
  {
    ReachableHolds(s);
    FailedSpent(s, a, epoch, y, terminal, quiescent, target, isolated, x, drawn, now);
  }

  /** Everything a call without the index would need is there. */
  lemma SpentRefused(s: Db, a: Id, epoch: nat, target: Id, isolated: bool, x: Id, drawn: Id, now: real)
    requires Authority(s, a, epoch, now) && Spent(s, a) && x !in s.executions
    ensures RefusedByIndex(s, a, epoch, target, isolated, x, drawn, now)
  {
  }

  lemma FailedRows(s: Db, y: Id, terminal: bool, quiescent: bool)
    requires y in s.executions && s.executions[y].Live()
    ensures var r := RecordPhysicalOutcome(s, y, ExecutionState.Failed, terminal, quiescent);
      && r.Ok? && y in r.value.executions && !r.value.executions[y].Live()
        && r.value.executions[y].attempt == s.executions[y].attempt
      && r.value == s.(executions := s.executions[y := r.value.executions[y]], incarnations := r.value.incarnations)
  {
  }

  lemma FailedSpends(s: Db, s': Db, a: Id, y: Id)
    requires Physical(s.executions, s.attempts, s.incarnations) && a in s.attempts
    requires y in s.executions && s.executions[y].attempt == a && s.executions[y].Live()
    requires y in s'.executions && s'.executions[y].attempt == a && !s'.executions[y].Live()
    requires s'.executions == s.executions[y := s'.executions[y]] && s'.attempts == s.attempts
    ensures Spent(s', a)
  {
    assert ExecutionPhysical(s.executions[y], s.attempts);
    assert y in ExecutionsOf(s'.executions, a);
  }

  lemma FailedSpent(s: Db, a: Id, epoch: nat, y: Id, terminal: bool, quiescent: bool, target: Id, isolated: bool,
                    x: Id, drawn: Id, now: real)
    requires Physical(s.executions, s.attempts, s.incarnations) && Authority(s, a, epoch, now)
    requires y in s.executions && s.executions[y].attempt == a && s.executions[y].Live() && x !in s.executions
    ensures var r := RecordPhysicalOutcome(s, y, ExecutionState.Failed, terminal, quiescent);
      r.Ok? && RefusedByIndex(r.value, a, epoch, target, isolated, x, drawn, now)
  {
    FailedRows(s, y, terminal, quiescent);
    var s' := RecordPhysicalOutcome(s, y, ExecutionState.Failed, terminal, quiescent).value;
    FailedSpends(s, s', a, y);
    SpentRefused(s', a, epoch, target, isolated, x, drawn, now);
  }

  // ---------------------------------------------------------------- fencing

  /** LEASED or RUNNING exactly while one ACTIVE attempt with an ACTIVE lease and the
      task's own epoch is the one it points to. */
  lemma FencingExact(steps: seq<Step>, t: Id)
    requires t in Run(EMPTY, steps).tasks
    ensures var s := Run(EMPTY, steps);
      && (s.tasks[t].Held() <==>
            s.tasks[t].current.Some? && s.tasks[t].current.value in s.attempts && s.tasks[t].current.value in s.leases
            && s.attempts[s.tasks[t].current.value].state.Active? && s.leases[s.tasks[t].current.value].state.Active?)
      && (forall a | a in s.attempts && s.attempts[a].task == t && s.attempts[a].state.Active? ::
            s.tasks[t].current == Some(a) && s.attempts[a].epoch == s.tasks[t].epoch)
      && |AttemptsOf(s.attempts, t)| == s.tasks[t].epoch
  {
    ReachableInv(steps);
    FencingOf(Run(EMPTY, steps), t);
  }

  lemma FencingOf(s: Db, t: Id)
    requires Fenced(s.tasks, s.attempts, s.leases) && EpochsCount(s.tasks, s.attempts) && t in s.tasks
    ensures s.tasks[t].Held() <==>
            s.tasks[t].current.Some? && s.tasks[t].current.value in s.attempts && s.tasks[t].current.value in s.leases
            && s.attempts[s.tasks[t].current.value].state.Active? && s.leases[s.tasks[t].current.value].state.Active?
    ensures forall a | a in s.attempts && s.attempts[a].task == t && s.attempts[a].state.Active? ::
            s.tasks[t].current == Some(a) && s.attempts[a].epoch == s.tasks[t].epoch
    ensures |AttemptsOf(s.attempts, t)| == s.tasks[t].epoch
  {
    assert TaskFenced(s.tasks[t], s.attempts, t);
    forall a | a in s.attempts ensures AttemptFenced(s.tasks, s.attempts[a], s.leases[a], a) {
    }
  }

  /** With the invariant, authority is the attempt's own epoch on an unexpired ACTIVE attempt. */
  lemma AuthorityIs(s: Db, a: Id, epoch: nat, now: real)
    requires Fenced(s.tasks, s.attempts, s.leases) && a in s.attempts
    ensures Authority(s, a, epoch, now) <==>
      s.attempts[a].state.Active? && s.attempts[a].epoch == epoch && s.leases[a].expires > now
  {
    assert AttemptFenced(s.tasks, s.attempts[a], s.leases[a], a);
  }

  // ---------------------------------------------------------------- finality of lost authority

  /** Clocks never run backwards. */
  predicate Chronological(steps: seq<Step>, from: real) {
    (forall i | 0 <= i < |steps| :: from <= steps[i].now)
      && forall i, j | 0 <= i < j < |steps| :: steps[i].now <= steps[j].now
  }

  ghost predicate Lost(s: Db, a: Id, epoch: nat, now: real) {
    a in s.attempts && !Authority(s, a, epoch, now)
  }

  lemma AfterFenced(s: Db, step: Step)
    requires Lawful(s)
    ensures var s' := After(s, step); Fenced(s.tasks, s.attempts, s.leases) && Fenced(s'.tasks, s'.attempts, s'.leases)
  {
    LawfulIff(s);
    AfterInv(s, step);
  }

  lemma AfterHistory(s: Db, step: Step)
    requires Lawful(s)
    ensures Evolves(s, After(s, step), step.now, Pardon(s, step), Settles(s, step))
  {
    LawfulIff(s);
    AfterEvolves(s, step);
  }

  lemma LostStays(s: Db, step: Step, a: Id, epoch: nat, now: real)
    requires Lawful(s) && Lost(s, a, epoch, now) && now <= step.now
    ensures Lost(After(s, step), a, epoch, step.now)
  {
    AfterFenced(s, step);
    AfterHistory(s, step);
    LostBetween(s, After(s, step), step.now, Pardon(s, step), Settles(s, step), a, epoch, now);
  }

  lemma LostBetween(s: Db, s': Db, at: real, pardon: Option<Id>, resolved: Option<Id>, a: Id, epoch: nat, now: real)
    requires Fenced(s.tasks, s.attempts, s.leases) && Fenced(s'.tasks, s'.attempts, s'.leases)
      && Evolves(s, s', at, pardon, resolved)
    requires Lost(s, a, epoch, now) && now <= at
    ensures Lost(s', a, epoch, at)
  {
    AuthorityIs(s, a, epoch, now);
    assert AttemptEvolves(s.attempts[a], s'.attempts[a]) && LeaseEvolves(s.leases[a], s'.leases[a], at);
    AuthorityIs(s', a, epoch, at);
  }

  function Last(steps: seq<Step>, from: real): real {
    if steps == [] then from else steps[|steps| - 1].now
  }

  lemma ChronologicalSplit(steps: seq<Step>, from: real)
    requires Chronological(steps, from) && steps != []
    ensures var n := |steps| - 1; Chronological(steps[..n], from) && Last(steps[..n], from) <= steps[n].now
  {
  }

  lemma {:induction false} RunInv(s: Db, steps: seq<Step>)
    requires Inv(s)
    ensures Inv(Run(s, steps))
  {
    if steps != [] {
      RunInv(s, steps[..|steps| - 1]);
      AfterInv(Run(s, steps[..|steps| - 1]), steps[|steps| - 1]);
    }
  }

  lemma RunLawful(s: Db, steps: seq<Step>)
    requires Lawful(s)
    ensures Lawful(Run(s, steps))
  {
    LawfulIff(s);
    RunInv(s, steps);
    LawfulIff(Run(s, steps));
  }

  lemma {:induction false} LostThrough(s: Db, steps: seq<Step>, a: Id, epoch: nat, now: real)
    requires Lawful(s) && Lost(s, a, epoch, now) && Chronological(steps, now)
    ensures Lost(Run(s, steps), a, epoch, Last(steps, now))
  {
    if steps != [] {
      var n := |steps| - 1;
      ChronologicalSplit(steps, now);
      LostThrough(s, steps[..n], a, epoch, now);
      RunLawful(s, steps[..n]);
      LostStays(Run(s, steps[..n]), steps[n], a, epoch, Last(steps[..n], now));
    }
  }

  lemma LostForever(s: Db, steps: seq<Step>, a: Id, epoch: nat, now: real)
    requires Inv(s) && a in s.attempts && !Authority(s, a, epoch, now) && Chronological(steps, now)
    ensures a in Run(s, steps).attempts && !Authority(Run(s, steps), a, epoch, Last(steps, now))
  {
    LawfulIff(s);
    LostThrough(s, steps, a, epoch, now);
  }

  /** The attempt and epoch a call must hold authority for. */
  function Credential(c: Call): Option<(Id, nat)> {
    match c
    case Pool(_) => None
    case Working(w) => (match w
      case Create(a, epoch, _, _, _, _) => Some((a, epoch))
      case Confirm(a, epoch, _, _) => Some((a, epoch))
      case Ambiguous(a, epoch, _) => Some((a, epoch))
      case Beat(a, epoch, _) => Some((a, epoch))
      case Checkpoint(a, epoch, _) => Some((a, epoch))
      case _ => None)
    case Settling(e) => (match e
      case Succeed(a, epoch, _, _, _, _, _) => Some((a, epoch))
      case Fail(a, epoch, _, _, _, _) => Some((a, epoch))
      case _ => None)
  }

  /** A call without authority is refused. */
  lemma StaleRefused(s: Db, c: Call, now: real)
    requires Credential(c).Some? && !Authority(s, Credential(c).value.0, Credential(c).value.1, now)
    ensures Apply(s, c, now).Err?
  {
    match c
    case Working(w) =>
    case Settling(e) =>
  }

  /** Once an attempt has failed the authority check, none of its acknowledgements,
      failure reports, heartbeats, checkpoints or starts changes anything, ever again. */
  lemma StaleForever(past: seq<Step>, future: seq<Step>, a: Id, epoch: nat, now: real, step: Step)
    requires a in Run(EMPTY, past).attempts && !Authority(Run(EMPTY, past), a, epoch, now)
    requires Chronological(future, now) && Last(future, now) <= step.now && Credential(step.call) == Some((a, epoch))
    ensures After(Run(Run(EMPTY, past), future), step) == Run(Run(EMPTY, past), future)
  {
    ReachableInv(past);
    var s := Run(EMPTY, past);
    LostForever(s, future, a, epoch, now);
    var s' := Run(s, future);
    assert Authority(s', a, epoch, step.now) ==> Authority(s', a, epoch, Last(future, now));
    StaleRefused(s', step.call, step.now);
  }

  // ---------------------------------------------------------------- writers

  /** Whatever the call, a WRITE task comes to be held only when nothing that ever ran for
      it can still be writing. */
  lemma ClaimsAreExclusive(s: Db, step: Step, t: Id, x: Id)
    requires Reachable(s) && t in s.tasks && s.tasks[t].mode.Write? && !s.tasks[t].Held()
    requires t in After(s, step).tasks && After(s, step).tasks[t].Held()
    requires x in s.executions && s.executions[x].task == t
    ensures s.executions[x].quiescent || s.executions[x].isolated
  {
    ReachableHolds(s);
    StepExclusive(s, step, t, x);
  }

  lemma StepExclusive(s: Db, step: Step, t: Id, x: Id)
    requires Inv(s) && t in s.tasks && s.tasks[t].mode.Write? && !s.tasks[t].Held()
    requires t in After(s, step).tasks && After(s, step).tasks[t].Held()
    requires x in s.executions && s.executions[x].task == t
    ensures s.executions[x].quiescent || s.executions[x].isolated
  {
    SettlingTakesNothing(s, step, t);
    AfterInv(s, step);
    AfterEvolves(s, step);
    TakenQuiet(s, After(s, step), step.now, Pardon(s, step), t, x);
  }

  lemma SettlingTakesNothing(s: Db, step: Step, t: Id)
    requires t in s.tasks && !s.tasks[t].Held() && t in After(s, step).tasks && After(s, step).tasks[t].Held()
    ensures Settles(s, step) == None
  {
    if Settles(s, step).Some? {
      ResolveHoldsNothing(s, step.call.settle, step.now, t);
    }
  }

  /** Between two states of a run in which no escalation is settled. */
  lemma TakenQuiet(s: Db, s': Db, now: real, pardon: Option<Id>, t: Id, x: Id)
    requires Safety.WritersTracked(s) && Escalated(s'.tasks, s'.agents, s'.escalations)
    requires Evolves(s, s', now, pardon, None)
    requires t in s.tasks && s.tasks[t].mode.Write? && !s.tasks[t].Held() && t in s'.tasks && s'.tasks[t].Held()
    requires x in s.executions && s.executions[x].task == t
    ensures s.executions[x].quiescent || s.executions[x].isolated
  {
    assert TaskEvolves(s.tasks[t], s'.tasks[t], pardon == Some(t));
    HoldBars(s, s', t);
    if !s.tasks[t].state.Suspended? {
      Safety.WaitingWriterQuiet(s, t, x);
    } else {
      UnheldWriter(s, t, x);
    }
  }

  /** A hold that outlives the step keeps its task from being taken. */
  lemma HoldBars(s: Db, s': Db, t: Id)
    requires Escalated(s'.tasks, s'.agents, s'.escalations) && HoldsEvolve(s.escalations, s'.escalations, None)
    requires t in s'.tasks
    ensures HasHold(s.escalations, t) ==> !s'.tasks[t].Held()
  {
    if HasHold(s.escalations, t) {
      var k :| k in s.escalations && s.escalations[k].task == t && s.escalations[k].Hold();
      assert EscalationSound(s'.tasks, s'.agents, s'.escalations[k]);
    }
  }

  lemma UnheldWriter(s: Db, t: Id, x: Id)
    requires Safety.WritersTracked(s) && t in s.tasks && s.tasks[t].mode.Write? && !s.tasks[t].Held()
    requires !s.tasks[t].state.Cancelled? && !HasHold(s.escalations, t)
    requires x in s.executions && s.executions[x].task == t
    ensures !s.executions[x].Unsafe()
  {
    var a := s.executions[x].attempt;
    assert ExecutionPhysical(s.executions[x], s.attempts);
    assert AttemptFenced(s.tasks, s.attempts[a], s.leases[a], a);
    assert TaskFenced(s.tasks[t], s.attempts, t);
    assert WriterHeld(s.tasks, s.attempts, s.executions[x], s.escalations);
  }

  /** A resolution never takes a task. */
  lemma ResolveHoldsNothing(s: Db, c: SettleCall, now: real, t: Id)
    requires c.Resolve? && ApplySettle(s, c, now).Ok? && t in s.tasks && !s.tasks[t].Held()
    ensures t in ApplySettle(s, c, now).value.tasks && !ApplySettle(s, c, now).value.tasks[t].Held()
  {
    ResolveOps.ResolvedUnheld(s, c.escalation, c.how, c.vouched, c.notice, now, t);
  }

  /** An attempt that was closed under a possible writer leaves its task suspended with an open decision. */
  lemma UnsafeClosedSuspended(s: Db, x: Id)
    requires Reachable(s) && x in s.executions && s.executions[x].Unsafe()
    requires s.executions[x].attempt in s.attempts && !s.attempts[s.executions[x].attempt].state.Active?
    requires s.executions[x].task in s.tasks && s.tasks[s.executions[x].task].mode.Write?
      && !s.tasks[s.executions[x].task].state.Cancelled?
    ensures s.tasks[s.executions[x].task].state.Suspended? && HasHold(s.escalations, s.executions[x].task)
  {
    ReachableHolds(s);
    Safety.UnsafeWriterSuspended(s, x);
  }

  // ---------------------------------------------------------------- holds

  /** No step of the run commits a resolution of the escalation; refused attempts do not count. */
  ghost predicate Unresolved(s: Db, steps: seq<Step>, k: Id) {
    forall i | 0 <= i < |steps| :: Settles(Run(s, steps[..i]), steps[i]) != Some(k)
  }

  lemma UnresolvedSplit(s: Db, steps: seq<Step>, k: Id)
    requires steps != [] && Unresolved(s, steps, k)
    ensures var n := |steps| - 1; Unresolved(s, steps[..n], k) && Settles(Run(s, steps[..n]), steps[n]) != Some(k)
  {
    var n := |steps| - 1;
    forall i | 0 <= i < n ensures Settles(Run(s, steps[..n][..i]), steps[..n][i]) != Some(k) {
      assert steps[..n][..i] == steps[..i];
    }
  }

  lemma HoldKept(s: Db, s': Db, now: real, pardon: Option<Id>, resolved: Option<Id>, k: Id)
    requires Evolves(s, s', now, pardon, resolved) && resolved != Some(k)
    requires k in s.escalations && s.escalations[k].Hold()
    ensures k in s'.escalations && s'.escalations[k] == s.escalations[k]
  {
  }

  /** The hold is lifted by a resolution that commits and by nothing else. */
  lemma {:induction false} HoldLasts(s: Db, steps: seq<Step>, k: Id)
    requires Inv(s) && k in s.escalations && s.escalations[k].Hold() && Unresolved(s, steps, k)
    ensures k in Run(s, steps).escalations && Run(s, steps).escalations[k] == s.escalations[k]
  {
    if steps != [] {
      var n := |steps| - 1;
      var before := Run(s, steps[..n]);
      UnresolvedSplit(s, steps, k);
      HoldLasts(s, steps[..n], k);
      RunInv(s, steps[..n]);
      AfterEvolves(before, steps[n]);
      HoldKept(before, After(before, steps[n]), steps[n].now, Pardon(before, steps[n]), Settles(before, steps[n]), k);
    }
  }

  /** Until then its agent is out of play, through every interleaving. */
  lemma HeldAgentOutOfPlay(past: seq<Step>, future: seq<Step>, k: Id)
    requires k in Run(EMPTY, past).escalations && Run(EMPTY, past).escalations[k].Hold()
    requires Unresolved(Run(EMPTY, past), future, k)
    ensures var s := Run(Run(EMPTY, past), future);
      k in s.escalations && s.escalations[k].Hold() && Safety.OutOfPlay(s, k)
  {
    ReachableInv(past);
    var s0 := Run(EMPTY, past);
    HoldLasts(s0, future, k);
    RunInv(s0, future);
    Safety.HeldOutOfPlay(Run(s0, future), k);
  }

  // ---------------------------------------------------------------- terminal tasks and bounded attempts

  /** COMPLETED and CANCELLED rows never change again. */
  lemma {:induction false} TerminalForever(s: Db, steps: seq<Step>, t: Id)
    requires Inv(s) && t in s.tasks && s.tasks[t].Terminal()
    ensures t in Run(s, steps).tasks && Run(s, steps).tasks[t] == s.tasks[t]
  {
    if steps != [] {
      var n := |steps| - 1;
      TerminalForever(s, steps[..n], t);
      RunInv(s, steps[..n]);
      AfterEvolves(Run(s, steps[..n]), steps[n]);
      assert TaskEvolves(s.tasks[t], Run(s, steps).tasks[t], Pardon(Run(s, steps[..n]), steps[n]) == Some(t));
    }
  }

  /** How often Root sent the task back to the queue. */
  ghost function Pardons(steps: seq<Step>, t: Id): nat {
    if steps == [] then 0
    else
      var n := |steps| - 1;
      Pardons(steps[..n], t) + if Pardon(Run(EMPTY, steps[..n]), steps[n]) == Some(t) then 1 else 0
  }

  lemma SlackStep(s: Db, s': Db, now: real, pardon: Option<Id>, resolved: Option<Id>, t: Id, granted: nat)
    requires Evolves(s, s', now, pardon, resolved) && t in s'.tasks
    requires t in s.tasks ==> Slack(s.tasks[t]) + granted >= 0
    ensures Slack(s'.tasks[t]) + granted + (if pardon == Some(t) then 1 else 0) >= 0
  {
    assert t in s.tasks ==> TaskEvolves(s.tasks[t], s'.tasks[t], pardon == Some(t));
  }

  lemma {:induction false} SlackBounded(steps: seq<Step>, t: Id)
    requires t in Run(EMPTY, steps).tasks
    ensures Slack(Run(EMPTY, steps).tasks[t]) + Pardons(steps, t) >= 0
  {
    if steps != [] {
      var n := |steps| - 1;
      var s := Run(EMPTY, steps[..n]);
      ReachableInv(steps[..n]);
      AfterEvolves(s, steps[n]);
      if t in s.tasks {
        SlackBounded(steps[..n], t);
      }
      SlackStep(s, After(s, steps[n]), steps[n].now, Pardon(s, steps[n]), Settles(s, steps[n]), t,
                Pardons(steps[..n], t));
    }
  }

  /** No task is attempted more often than its budget plus the retries Root granted. */
  lemma AttemptsBounded(steps: seq<Step>, t: Id)
    requires t in Run(EMPTY, steps).tasks
    ensures |AttemptsOf(Run(EMPTY, steps).attempts, t)| <= Run(EMPTY, steps).tasks[t].maxAttempts + Pardons(steps, t)
  {
    ReachableInv(steps);
    SlackBounded(steps, t);
    assert |AttemptsOf(Run(EMPTY, steps).attempts, t)| == Run(EMPTY, steps).tasks[t].epoch;
  }

  // ---------------------------------------------------------------- dependencies, batches, topology

  lemma NeverDeadlocked(steps: seq<Step>, b: Id)
    requires b in Run(EMPTY, steps).batches && Run(EMPTY, steps).batches[b].Active?
    ensures var s := Run(EMPTY, steps);
      exists t :: t in s.tasks && s.tasks[t].batch == b && InProgress(s.tasks[t].state)
  {
    ReachableInv(steps);
    Safety.ActiveBatchMoves(Run(EMPTY, steps), b);
  }

  lemma NotifiedOnce(steps: seq<Step>, b: Id)
    requires b in Run(EMPTY, steps).batches
    ensures var s := Run(EMPTY, steps); |Safety.Notices(s.outbox, b)| == if AllCompleted(s.tasks, b) then 1 else 0
  {
    ReachableInv(steps);
    var s := Run(EMPTY, steps);
    Safety.NoticeOnce(s.tasks, s.batches, s.outbox, b);
  }

  lemma ResultOnce(steps: seq<Step>, t: Id)
    requires t in Run(EMPTY, steps).tasks
    ensures var s := Run(EMPTY, steps); |Safety.ResultsOf(s.results, t)| == if s.tasks[t].state.Completed? then 1 else 0
  {
    ReachableInv(steps);
    var s := Run(EMPTY, steps);
    Safety.ResultOnce(s.tasks, s.results, t);
  }

  lemma BatchIsItsTasks(steps: seq<Step>, b: Id)
    requires b in Run(EMPTY, steps).batches
    ensures var s := Run(EMPTY, steps);
      if s.batches[b].Cancelled? then forall t | t in s.tasks && s.tasks[t].batch == b :: s.tasks[t].Terminal()
      else s.batches[b] == BatchNext(s.tasks, b)
  {
    ReachableInv(steps);
    Safety.BatchBarrier(Run(EMPTY, steps), b);
  }

  lemma TopologyClosed(steps: seq<Step>)
    ensures var s := Run(EMPTY, steps);
      && (forall t | t in s.tasks && !s.tasks[t].Terminal() :: ActivePartition(s.partitions, s.tasks[t].partition))
      && (forall g | g in s.agents
          && !s.agents[g].state.Retired? :: ActivePartition(s.partitions, Desired(s.agents[g])))
      && (forall p | p in s.partitions :: Canonical(s.partitions, p) != Err(MergeCycle))
  {
    ReachableInv(steps);
    Safety.TopologyClosed(Run(EMPTY, steps));
  }
}
