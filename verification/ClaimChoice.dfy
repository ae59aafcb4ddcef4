/** `claim_next_available` joins the least compatible pair and `claim_next` the agent's
    best task, and each makes a claim whenever there is one to make. */
module ClaimChoice {
  import opened Options
  import opened RowOrder
  import opened Tables
  import opened Work
  import opened ClaimOps

  // ------------------------------------------------------------- in terms of the rows

  /** The agent already carries the task's workstream. */
  predicate Familiar(task: Task, agent: Agent) {
    task.workstream.Some? && agent.workstream.Some? && task.workstream.value == agent.workstream.value
  }

  /** QUEUED in an ACTIVE batch with no backoff running, and an idle READY agent of its partition
      with its tags, and with its workstream when continuity is REQUIRED. */
  predicate Suits(s: Db, t: Id, g: Id, now: real) {
    && t in s.tasks && g in s.agents
    && var task, agent := s.tasks[t], s.agents[g];
    && task.state == TaskState.Queued && (task.nextEligible == None || task.nextEligible.value <= now)
    && task.batch in s.batches && s.batches[task.batch] == BatchState.Active
    && agent.partition == task.partition && agent.state == AgentState.Ready && agent.current == None
    && (forall tag | tag in task.tags :: tag in agent.tags)
    && (task.continuity == Required ==> Familiar(task, agent))
  }

  predicate Compatible(s: Db, t: Id, g: Id, now: real) {
    Suits(s, t, g, now) && s.tasks[t].partition in s.partitions && s.partitions[s.tasks[t].partition].active
  }

  /** Higher priority, then older, then lower id. */
  predicate TaskAhead(p: Task, t: Id, q: Task, u: Id) {
    || p.priority > q.priority
    || (p.priority == q.priority && p.created < q.created)
    || (p.priority == q.priority && p.created == q.created && t < u)
  }

  /** A missing or zero stamp counts as the agent's birth. */
  function IdleSince(agent: Agent): real {
    match agent.available
    case Some(at) => if at == 0.0 then agent.created else at
    case None => agent.created
  }

  /** A familiar agent first unless the task has no preference, then longest idle, then lower id. */
  predicate AgentAhead(task: Task, p: Agent, g: Id, q: Agent, h: Id) {
    var preferred := !task.continuity.NoPreference? && Familiar(task, p);
    var rival := !task.continuity.NoPreference? && Familiar(task, q);
    || (preferred && !rival)
    || (preferred == rival && IdleSince(p) < IdleSince(q))
    || (preferred == rival && IdleSince(p) == IdleSince(q) && g < h)
  }

  predicate Precedes(s: Db, t: Id, g: Id, u: Id, h: Id)
    requires t in s.tasks && u in s.tasks && g in s.agents && h in s.agents
  {
    || TaskAhead(s.tasks[t], t, s.tasks[u], u)
    || (t == u && AgentAhead(s.tasks[t], s.agents[g], g, s.agents[h], h))
  }

  ghost predicate IsFirst(s: Db, t: Id, g: Id, now: real) {
    Compatible(s, t, g, now)
    && forall u: Id, h: Id | Compatible(s, u, h, now) && (u, h) != (t, g) :: Precedes(s, t, g, u, h)
  }

  /** Two first pairs are one: the choice cannot depend on the order rows are read in. */
  lemma FirstUnique(s: Db, t: Id, g: Id, u: Id, h: Id, now: real)
    requires IsFirst(s, t, g, now) && IsFirst(s, u, h, now)
    ensures t == u && g == h
  {
  }

  // ------------------------------------------------------------- the scan

  lemma CompatibleIff(s: Db, t: Id, g: Id, now: real)
    ensures Compatible(s, t, g, now) <==> Claimable(s, t, now) && g in s.agents && Fits(s.tasks[t], s.agents[g])
  {
  }

  /** The ranks the scan sorts by say the same as the rows. */
  lemma RanksAgree(s: Db, t: Id, g: Id, u: Id, h: Id)
    requires t in s.tasks && u in s.tasks && g in s.agents && h in s.agents
    ensures Precedes(s, t, g, u, h) <==>
      || Before(TaskRank(s.tasks[t], t), TaskRank(s.tasks[u], u))
      || (t == u && Before(AgentRank(s.tasks[t], s.agents[g], g), AgentRank(s.tasks[t], s.agents[h], h)))
  {
  }

  ghost predicate InTaskOrder(s: Db, list: seq<Id>) {
    && (forall t | t in list :: t in s.tasks)
    && forall i, j | 0 <= i < j < |list| ::
      Before(TaskRank(s.tasks[list[i]], list[i]), TaskRank(s.tasks[list[j]], list[j]))
  }

  lemma OrderTail(s: Db, list: seq<Id>)
    requires list != [] && InTaskOrder(s, list)
    ensures InTaskOrder(s, list[1..])
  {
    var rest := list[1..];
    forall i, j | 0 <= i < j < |rest|
      ensures Before(TaskRank(s.tasks[rest[i]], rest[i]), TaskRank(s.tasks[rest[j]], rest[j])) {
      assert rest[i] == list[i + 1] && rest[j] == list[j + 1];
    }
  }

  /** The scan stops at the first task with a fitting agent and takes the best one. */
  lemma {:induction false} ScanFindsFirst(s: Db, list: seq<Id>, u: Id, h: Id)
    requires InTaskOrder(s, list) && u in list && h in s.agents && Fits(s.tasks[u], s.agents[h])
    ensures FirstPair(s, list).Some?
    ensures var (t, g) := FirstPair(s, list).value;
      t in s.tasks && g in s.agents && ((u, h) == (t, g) || Precedes(s, t, g, u, h))
  {
    var t := list[0];
    var rows := FittingRows(s, t);
    if rows != map[] {
      var g := Least(rows, rows.Keys);
      RanksAgree(s, t, g, u, h);
      if u == t {
        assert h in rows;
      } else {
        var j :| 0 <= j < |list| && list[j] == u;
        assert Before(TaskRank(s.tasks[list[0]], list[0]), TaskRank(s.tasks[list[j]], list[j]));
      }
    } else {
      assert u != t by {
        assert h !in rows;
      }
      OrderTail(s, list);
      ScanFindsFirst(s, list[1..], u, h);
    }
  }

  lemma ClaimableInOrder(s: Db, now: real)
    ensures InTaskOrder(s, Listing(ClaimableRows(s, now)))
  {
    var rows := ClaimableRows(s, now);
    var list := Listing(rows);
    forall t | t in list ensures t in s.tasks {
      assert t in rows;
    }
    forall i, j | 0 <= i < j < |list|
      ensures Before(TaskRank(s.tasks[list[i]], list[i]), TaskRank(s.tasks[list[j]], list[j])) {
      ListingSorted(rows, rows.Keys, i, j);
      assert list[i] in list && list[j] in list;
    }
  }

  /** Which pair is chosen, for every state of the tables. */
  function Chosen(s: Db, now: real): Option<(Id, Id)> {
    FirstPair(s, Listing(ClaimableRows(s, now)))
  }

  /** The chosen pair is the first compatible one, and there is one unless nothing is compatible. */
  lemma ClaimOptimal(s: Db, now: real)
    ensures match Chosen(s, now)
      case Some((t, g)) => IsFirst(s, t, g, now)
      case None => forall t: Id, g: Id :: !Compatible(s, t, g, now)
  {
    var list := Listing(ClaimableRows(s, now));
    ClaimableInOrder(s, now);
    FirstPairFits(s, list);
    forall u: Id, h: Id | Compatible(s, u, h, now)
      ensures Chosen(s, now).Some?
      ensures var (t, g) := Chosen(s, now).value;
        t in s.tasks && g in s.agents && ((u, h) == (t, g) || Precedes(s, t, g, u, h)) {
      CompatibleIff(s, u, h, now);
      assert u in ClaimableRows(s, now);
      ScanFindsFirst(s, list, u, h);
    }
    match Chosen(s, now)
    case None =>
    case Some((t, g)) =>
      assert t in ClaimableRows(s, now);
      CompatibleIff(s, t, g, now);
  }

  /** A claim call joins the first compatible pair, or does nothing because there is none. */
  lemma NextAvailableOptimal(s: Db, a: Id, leaseSeconds: real, now: real)
    requires ClaimNextAvailable(s, a, leaseSeconds, now).Ok?
    ensures var (s', pair) := ClaimNextAvailable(s, a, leaseSeconds, now).value;
      && (pair.None? <==> forall t: Id, g: Id :: !Compatible(s, t, g, now))
      && (forall t: Id, g: Id :: IsFirst(s, t, g, now) <==> pair == Some((t, g)))
      && (pair.None? ==> s' == s)
      && (pair.Some? ==> ClaimSelected(s, pair.value.0, pair.value.1, a, leaseSeconds, now) == Ok(s'))
  {
    ClaimOptimal(s, now);
    var pair := Chosen(s, now);
    forall t: Id, g: Id | IsFirst(s, t, g, now) ensures pair == Some((t, g)) {
      assert Compatible(s, t, g, now);
      FirstUnique(s, t, g, pair.value.0, pair.value.1, now);
    }
  }

  // ------------------------------------------------------------- for a given agent

  /** Familiar tasks first, then those without a preference, then the rest. */
  function Distance(task: Task, agent: Agent): nat {
    if Familiar(task, agent) then 0 else match task.continuity case NoPreference => 1 case _ => 2
  }

  predicate OfferAhead(agent: Agent, p: Task, t: Id, q: Task, u: Id) {
    || Distance(p, agent) < Distance(q, agent)
    || (Distance(p, agent) == Distance(q, agent) && TaskAhead(p, t, q, u))
  }

  /** Ahead of every other task that suits the agent. */
  ghost predicate IsBestOffer(s: Db, t: Id, g: Id, now: real) {
    Suits(s, t, g, now)
    && forall u: Id | Suits(s, u, g, now) && u != t :: OfferAhead(s.agents[g], s.tasks[t], t, s.tasks[u], u)
  }

  lemma OfferedIff(s: Db, t: Id, g: Id, now: real)
    requires g in s.agents
    ensures Suits(s, t, g, now) <==> t in OfferedRows(s, g, now)
  {
  }

  lemma LeastOffer(s: Db, g: Id, now: real)
    requires g in s.agents && OfferedRows(s, g, now) != map[]
    ensures IsBestOffer(s, Least(OfferedRows(s, g, now), OfferedRows(s, g, now).Keys), g, now)
  {
    var rows := OfferedRows(s, g, now);
    var t := Least(rows, rows.Keys);
    OfferedIff(s, t, g, now);
    forall u: Id | Suits(s, u, g, now) && u != t ensures OfferAhead(s.agents[g], s.tasks[t], t, s.tasks[u], u) {
      OfferedIff(s, u, g, now);
      assert Before(rows[t], rows[u]);
    }
  }

  /** An idle agent is given its best offer; it is given nothing exactly when it is not
      idle or has no offer. */
  lemma ClaimNextOptimal(s: Db, g: Id, a: Id, leaseSeconds: real, now: real)
    requires ClaimNext(s, g, a, leaseSeconds, now).Ok?
    ensures var (s', claimed) := ClaimNext(s, g, a, leaseSeconds, now).value;
      && g in s.agents
      && (claimed.None? <==>
        !s.agents[g].state.Ready? || s.agents[g].current.Some? || forall t: Id :: !Suits(s, t, g, now))
      && (claimed.None? ==> s' == s)
      && (claimed.Some? ==>
        IsBestOffer(s, claimed.value, g, now) && ClaimSelected(s, claimed.value, g, a, leaseSeconds, now) == Ok(s'))
  {
    forall t: Id ensures Suits(s, t, g, now) <==> t in OfferedRows(s, g, now) {
      OfferedIff(s, t, g, now);
    }
    if OfferedRows(s, g, now) != map[] {
      LeastOffer(s, g, now);
    }
  }
}
