/** Creating an execution keeps the whole invariant. */
module ExecutionOps {
  import opened Options
  import opened RowOrder
  import opened Tables
  import opened Work
  import opened Invariants
  import opened TopologyProofs

  /** Attempts differ at most in their incarnation. */
  ghost predicate AttemptsAlike(attempts: map<Id, Attempt>, attempts': map<Id, Attempt>) {
    attempts'.Keys == attempts.Keys
    && forall a | a in attempts :: attempts'[a] == attempts[a].(incarnation := attempts'[a].incarnation)
  }

  lemma PlacedFenced(tasks: map<Id, Task>, attempts: map<Id, Attempt>, attempts': map<Id, Attempt>,
                     leases: map<Id, Lease>)
    requires AttemptsAlike(attempts, attempts') && Fenced(tasks, attempts, leases) && EpochsCount(tasks, attempts)
    ensures Fenced(tasks, attempts', leases) && EpochsCount(tasks, attempts')
  {
    forall a | a in attempts' ensures AttemptFenced(tasks, attempts'[a], leases[a], a) {
      assert AttemptFenced(tasks, attempts[a], leases[a], a);
    }
    forall t | t in tasks ensures TaskFenced(tasks[t], attempts', t) && |AttemptsOf(attempts', t)| == tasks[t].epoch {
      assert TaskFenced(tasks[t], attempts, t);
      assert AttemptsOf(attempts', t) == AttemptsOf(attempts, t);
    }
  }

  lemma PlacedEngaged(tasks: map<Id, Task>, attempts: map<Id, Attempt>, attempts': map<Id, Attempt>,
                      agents: map<Id, Agent>)
    requires AttemptsAlike(attempts, attempts') && AgentsEngaged(tasks, attempts, agents)
    ensures AgentsEngaged(tasks, attempts', agents)
  {
    forall g | g in agents ensures AgentAssigned(tasks, attempts', agents[g], g) {
      assert AgentAssigned(tasks, attempts, agents[g], g);
    }
  }

  /** One more than the newest generation is nobody's. */
  lemma NewestGeneration(incs: map<Id, Incarnation>, g: Id, all: set<Id>, i: Id)
    requires all == (set j | j in incs && incs[j].agent == g) && i in all
    ensures incs[i].generation <= incs[Least(GenerationRows(incs, all), all)].generation
  {
    var rows := GenerationRows(incs, all);
    assert IsLeast(rows, all, Least(rows, all));
  }

  lemma GenerationsGrow(incs: map<Id, Incarnation>, drawn: Id, row: Incarnation)
    requires drawn !in incs && Generations(incs)
    requires forall i | i in incs && incs[i].agent == row.agent :: incs[i].generation < row.generation
    ensures Generations(incs[drawn := row])
  {
  }

  lemma NewIncarnation(incs: map<Id, Incarnation>, g: Id, target: Id, drawn: Id)
    requires LiveIncarnations(incs, g) == {} && drawn !in incs
    ensures IncsKept(incs, EnsureIncarnation(incs, g, target, drawn).value.0)
  {
    var all := set i | i in incs && incs[i].agent == g;
    var row := EnsureIncarnation(incs, g, target, drawn).value.0[drawn];
    forall i | i in incs && incs[i].agent == row.agent ensures incs[i].generation < row.generation {
      assert i in all;
      NewestGeneration(incs, g, all, i);
    }
    if Generations(incs) {
      GenerationsGrow(incs, drawn, row);
    }
  }

  /** The chosen incarnation is the agent's own and no execution lives in it. */
  lemma IncarnationOwned(incs: map<Id, Incarnation>, g: Id, target: Id, drawn: Id)
    requires EnsureIncarnation(incs, g, target, drawn).Ok?
    ensures var (incs', i) := EnsureIncarnation(incs, g, target, drawn).value;
      IncsKept(incs, incs') && i in incs' && incs'[i].agent == g
  {
    var live := LiveIncarnations(incs, g);
    if live != {} {
      assert Least(GenerationRows(incs, live), live) in live;
    } else {
      NewIncarnation(incs, g, target, drawn);
    }
  }

  ghost predicate Starts(s: Db, s': Db, a: Id, x: Id, i: Id) {
    && a in s.attempts && s.attempts[a].state.Active? && x !in s.executions && ExecutionsOf(s.executions, a) == {}
    && !Busy(s.executions, i) && IncsKept(s.incarnations, s'.incarnations)
    && i in s'.incarnations && s'.incarnations[i].agent == s.attempts[a].agent
    && s'.attempts == s.attempts[a := s.attempts[a].(incarnation := Some(i))]
    && x in s'.executions && s'.executions == s.executions[x := s'.executions[x]]
    && s'.executions[x].task == s.attempts[a].task && s'.executions[x].attempt == a && s'.executions[x].incarnation == i
    && s' == s.(incarnations := s'.incarnations, attempts := s'.attempts, executions := s'.executions)
  }

  lemma ChosenOwned(s: Db, a: Id, target: Id, drawn: Id)
    requires a in s.attempts && Physical(s.executions, s.attempts, s.incarnations)
      && ChooseIncarnation(s, a, target, drawn).Ok?
    ensures var (incs, i) := ChooseIncarnation(s, a, target, drawn).value;
      IncsKept(s.incarnations, incs) && i in incs && incs[i].agent == s.attempts[a].agent
  {
    if s.attempts[a].incarnation.None? {
      IncarnationOwned(s.incarnations, s.attempts[a].agent, target, drawn);
    }
  }

  lemma CreateValue(s: Db, a: Id, epoch: nat, target: Id, isolated: bool, x: Id, drawn: Id, now: real)
    requires CreateExecution(s, a, epoch, target, isolated, x, drawn, now).Ok?
    ensures Authority(s, a, epoch, now) && ChooseIncarnation(s, a, target, drawn).Ok?
    ensures x !in s.executions && ExecutionsOf(s.executions, a) == {}
    ensures var (incs, i) := ChooseIncarnation(s, a, target, drawn).value;
      !Busy(s.executions, i)
        && CreateExecution(s, a, epoch, target, isolated, x, drawn, now).value
          == StartedRows(s, a, incs, i, target, isolated, x)
  {
  }

  lemma RowsStart(s: Db, a: Id, incs: map<Id, Incarnation>, i: Id, target: Id, isolated: bool, x: Id)
    requires a in s.attempts && s.attempts[a].state.Active? && x !in s.executions && ExecutionsOf(s.executions, a) == {}
    requires !Busy(s.executions, i) && IncsKept(s.incarnations, incs) && i in incs
      && incs[i].agent == s.attempts[a].agent
    ensures Starts(s, StartedRows(s, a, incs, i, target, isolated, x), a, x, i)
  {
  }

  lemma StartedPhysical(s: Db, s': Db, a: Id, x: Id, i: Id)
    requires Starts(s, s', a, x, i) && Physical(s.executions, s.attempts, s.incarnations)
    ensures Physical(s'.executions, s'.attempts, s'.incarnations)
  {
    forall y | y in s'.executions ensures ExecutionPhysical(s'.executions[y], s'.attempts) {
      if y != x {
        assert ExecutionPhysical(s.executions[y], s.attempts);
        assert y !in ExecutionsOf(s.executions, a);
      }
    }
    forall y, z | y in s'.executions && z in s'.executions && s'.executions[y].attempt == s'.executions[z].attempt
      ensures y == z {
      assert y !in ExecutionsOf(s.executions, a) && z !in ExecutionsOf(s.executions, a);
    }
  }

  lemma StartedWriters(s: Db, s': Db, a: Id, x: Id, i: Id)
    requires Starts(s, s', a, x, i) && WritersHeld(s.tasks, s.attempts, s.executions, s.escalations)
    ensures WritersHeld(s'.tasks, s'.attempts, s'.executions, s'.escalations)
  {
    forall y | y in s'.executions ensures WriterHeld(s'.tasks, s'.attempts, s'.executions[y], s'.escalations) {
      assert y != x ==> WriterHeld(s.tasks, s.attempts, s.executions[y], s.escalations);
    }
  }

  lemma StartsAlike(s: Db, s': Db, a: Id, x: Id, i: Id)
    requires Starts(s, s', a, x, i)
    ensures AttemptsAlike(s.attempts, s'.attempts)
  {
  }

  lemma StartsInv(s: Db, s': Db, a: Id, x: Id, i: Id)
    requires Inv(s) && Starts(s, s', a, x, i)
    ensures Inv(s')
  {
    StartsAlike(s, s', a, x, i);
    PlacedFenced(s.tasks, s.attempts, s'.attempts, s.leases);
    PlacedEngaged(s.tasks, s.attempts, s'.attempts, s.agents);
    StartedPhysical(s, s', a, x, i);
    StartedWriters(s, s', a, x, i);
  }

  lemma CreateInv(s: Db, a: Id, epoch: nat, target: Id, isolated: bool, x: Id, drawn: Id, now: real)
    requires Inv(s) && CreateExecution(s, a, epoch, target, isolated, x, drawn, now).Ok?
    ensures Inv(CreateExecution(s, a, epoch, target, isolated, x, drawn, now).value)
  {
    CreateValue(s, a, epoch, target, isolated, x, drawn, now);
    ChosenOwned(s, a, target, drawn);
    var (incs, i) := ChooseIncarnation(s, a, target, drawn).value;
    RowsStart(s, a, incs, i, target, isolated, x);
    StartsInv(s, StartedRows(s, a, incs, i, target, isolated, x), a, x, i);
  }
}
