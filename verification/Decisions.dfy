/** Claim selection over snapshots of task and agent rows. */
module Decisions {
  import opened Options
  import opened Sorting
  import M = Matching

  datatype TaskSnapshot = TaskSnapshot(
    id: string,
    queued: bool,
    batchActive: bool,
    partitionActive: bool,
    nextEligible: Option<real>,
    priority: int,
    createdAt: real,
    typed: bool)

  predicate ClaimTaskEligible(t: TaskSnapshot, now: real) {
    && !t.typed && t.queued && t.batchActive && t.partitionActive
    && (t.nextEligible.Some? ==> t.nextEligible.value <= now)
  }

  /** Highest priority, oldest submission, lowest id. */
  predicate TaskBefore(a: TaskSnapshot, b: TaskSnapshot) {
    if a.priority != b.priority then a.priority > b.priority
    else if a.createdAt != b.createdAt then a.createdAt < b.createdAt
    else TextBefore(a.id, b.id)
  }

  function OrderClaimTasks(tasks: seq<TaskSnapshot>, now: real): seq<TaskSnapshot> {
    Sort(Filter(tasks, (t: TaskSnapshot) => ClaimTaskEligible(t, now)), TaskBefore)
  }

  lemma TaskOrder()
    ensures StrictWeak(TaskBefore)
  {
    TextTotal();
  }

  ghost predicate TaskIdsDiffer(tasks: seq<TaskSnapshot>) {
    forall i, j | 0 <= i < j < |tasks| :: tasks[i].id != tasks[j].id
  }

  lemma {:induction false} TasksFiltered(tasks: seq<TaskSnapshot>, keep: TaskSnapshot -> bool)
    requires TaskIdsDiffer(tasks)
    ensures Separated(Filter(tasks, keep), TaskBefore)
  {
    if tasks != [] {
      var init, last := tasks[..|tasks| - 1], tasks[|tasks| - 1];
      TasksFiltered(init, keep);
      FilterMembers(init, keep);
      var kept := Filter(init, keep);
      forall i | 0 <= i < |kept| ensures TaskBefore(kept[i], last) || TaskBefore(last, kept[i]) {
        assert kept[i] in init;
        TextAsymmetric(kept[i].id, last.id);
      }
    }
  }

  /** QUEUED in an ACTIVE batch on an active partition, untyped, with no backoff running. */
  predicate Claimable(t: TaskSnapshot, now: real) {
    && t.queued && t.batchActive && t.partitionActive && !t.typed
    && (t.nextEligible == None || t.nextEligible.value <= now)
  }

  /** Higher priority, then older, then lower id. */
  predicate TaskAhead(a: TaskSnapshot, b: TaskSnapshot) {
    || a.priority > b.priority
    || (a.priority == b.priority && a.createdAt < b.createdAt)
    || (a.priority == b.priority && a.createdAt == b.createdAt && TextBefore(a.id, b.id))
  }

  /** The visiting order lists exactly the eligible tasks, each before every one it
      precedes, whatever order the rows came in. */
  lemma VisitsInOrder(tasks: seq<TaskSnapshot>, rows: seq<TaskSnapshot>, now: real)
    requires TaskIdsDiffer(tasks) && TaskIdsDiffer(rows) && forall t :: t in tasks <==> t in rows
    ensures forall t :: t in OrderClaimTasks(tasks, now) <==> t in tasks && Claimable(t, now)
    ensures var list := OrderClaimTasks(tasks, now);
      forall i, j | 0 <= i < j < |list| :: TaskAhead(list[i], list[j])
    ensures OrderClaimTasks(rows, now) == OrderClaimTasks(tasks, now)
  {
    var eligible := (t: TaskSnapshot) => ClaimTaskEligible(t, now);
    TaskOrder();
    FilterMembers(tasks, eligible);
    FilterMembers(rows, eligible);
    TasksFiltered(tasks, eligible);
    TasksFiltered(rows, eligible);
    SortMembers(Filter(tasks, eligible), TaskBefore);
    SortIncreases(Filter(tasks, eligible), TaskBefore);
    SortSame(Filter(tasks, eligible), Filter(rows, eligible), TaskBefore);
  }

  // ---------------------------------------------------------------- agents

  datatype AgentSnapshot = AgentSnapshot(
    id: string,
    ready: bool,
    busy: bool,
    partition: string,
    workstream: Option<string>,
    tags: set<string>,
    availableSince: Option<real>,
    createdAt: real,
    typeBound: bool)

  predicate Selectable(a: AgentSnapshot, intent: M.Placement) {
    && !a.typeBound && a.ready && !a.busy
    && a.partition == intent.partition && intent.tags <= a.tags
    && (intent.continuity.Required? ==> intent.workstream.Some? && intent.workstream == a.workstream)
  }

  function SelectionRank(a: AgentSnapshot, intent: M.Placement): nat {
    if !intent.continuity.NoPreference? && intent.workstream.Some? && a.workstream == intent.workstream then 0 else 1
  }

  function Since(a: AgentSnapshot): real {
    if a.availableSince.Some? then a.availableSince.value else a.createdAt
  }

  predicate AgentBefore(a: AgentSnapshot, b: AgentSnapshot, intent: M.Placement) {
    if SelectionRank(a, intent) != SelectionRank(b, intent) then SelectionRank(a, intent) < SelectionRank(b, intent)
    else if Since(a) != Since(b) then Since(a) < Since(b)
    else TextBefore(a.id, b.id)
  }

  /** The first agent none of the others precedes. */
  function SelectClaimAgent(agents: seq<AgentSnapshot>, intent: M.Placement): Option<AgentSnapshot> {
    if agents == [] then None
    else
      var n := |agents| - 1;
      var best := SelectClaimAgent(agents[..n], intent);
      if !Selectable(agents[n], intent) then best
      else if best.None? || AgentBefore(agents[n], best.value, intent) then Some(agents[n])
      else best
  }

  /** The agent carries the workstream of the task. */
  predicate Familiar(a: AgentSnapshot, intent: M.Placement) {
    intent.workstream != None && a.workstream == intent.workstream
  }

  /** An idle READY agent without a type, in the partition, with the tags, and familiar when
      continuity is REQUIRED. */
  predicate Suits(a: AgentSnapshot, intent: M.Placement) {
    && a.ready && !a.busy && !a.typeBound && a.partition == intent.partition
    && (forall tag | tag in intent.tags :: tag in a.tags)
    && (intent.continuity == M.Required ==> Familiar(a, intent))
  }

  /** A familiar agent first unless there is no preference, then longest idle, then lower id. */
  predicate AgentAhead(a: AgentSnapshot, b: AgentSnapshot, intent: M.Placement) {
    var first := intent.continuity != M.NoPreference && Familiar(a, intent);
    var second := intent.continuity != M.NoPreference && Familiar(b, intent);
    var since := match a.availableSince case Some(at) => at case None => a.createdAt;
    var rival := match b.availableSince case Some(at) => at case None => b.createdAt;
    || (first && !second)
    || (first == second && since < rival)
    || (first == second && since == rival && TextBefore(a.id, b.id))
  }

  /** `a` suits and is ahead of every other agent that does. */
  ghost predicate IsBest(a: AgentSnapshot, agents: seq<AgentSnapshot>, intent: M.Placement) {
    && a in agents && Suits(a, intent)
    && forall b | b in agents && Suits(b, intent) && b != a :: AgentAhead(a, b, intent)
  }

  /** The same by the comparison the selection uses. */
  ghost predicate IsLeast(a: AgentSnapshot, agents: seq<AgentSnapshot>, intent: M.Placement) {
    && a in agents && Selectable(a, intent)
    && forall b | b in agents && Selectable(b, intent) && b != a :: AgentBefore(a, b, intent)
  }

  lemma BestIs(a: AgentSnapshot, agents: seq<AgentSnapshot>, intent: M.Placement)
    requires IsLeast(a, agents, intent)
    ensures IsBest(a, agents, intent)
  {
  }

  lemma SuitsIff(a: AgentSnapshot, intent: M.Placement)
    ensures Selectable(a, intent) <==> Suits(a, intent)
  {
  }

  ghost predicate AgentIdsDiffer(agents: seq<AgentSnapshot>) {
    forall i, j | 0 <= i < j < |agents| :: agents[i].id != agents[j].id
  }

  lemma AgentsCompare(a: AgentSnapshot, b: AgentSnapshot, c: AgentSnapshot, intent: M.Placement)
    ensures AgentBefore(a, b, intent) ==> !AgentBefore(b, a, intent)
    ensures a.id != b.id ==> AgentBefore(a, b, intent) || AgentBefore(b, a, intent)
    ensures AgentBefore(a, b, intent) && AgentBefore(b, c, intent) ==> AgentBefore(a, c, intent)
  {
    TextAsymmetric(a.id, b.id);
    TextAsymmetric(b.id, c.id);
    TextTransits(a.id, c.id, b.id);
    TextTransits(b.id, a.id, c.id);
    TextTransits(a.id, b.id, c.id);
    TextAsymmetric(a.id, c.id);
  }

  lemma {:induction false} SelectsLeast(agents: seq<AgentSnapshot>, intent: M.Placement)
    requires AgentIdsDiffer(agents)
    ensures match SelectClaimAgent(agents, intent)
      case None => forall a | a in agents :: !Selectable(a, intent)
      case Some(a) => IsLeast(a, agents, intent)
  {
    if agents != [] {
      var n := |agents| - 1;
      var init, last := agents[..n], agents[n];
      SelectsLeast(init, intent);
      assert forall a :: a in agents <==> a in init || a == last by { assert agents == init + [last]; }
      forall a | a in init ensures a.id != last.id {
      }
      var best := SelectClaimAgent(init, intent);
      if best.Some? {
        AgentsCompare(last, best.value, best.value, intent);
        forall b | b in init && Selectable(b, intent) && b != best.value && AgentBefore(last, best.value, intent)
          ensures AgentBefore(last, b, intent) {
          AgentsCompare(last, best.value, b, intent);
        }
      }
    }
  }

  /** An agent is selected whenever one suits, and it is the best one; so the choice does not
      depend on the order of the rows. */
  lemma SelectsBest(agents: seq<AgentSnapshot>, intent: M.Placement)
    requires AgentIdsDiffer(agents)
    ensures match SelectClaimAgent(agents, intent)
      case None => forall a | a in agents :: !Suits(a, intent)
      case Some(a) => IsBest(a, agents, intent)
  {
    SelectsLeast(agents, intent);
    match SelectClaimAgent(agents, intent)
    case None =>
      forall a | a in agents ensures !Suits(a, intent) {
        SuitsIff(a, intent);
      }
    case Some(a) => BestIs(a, agents, intent);
  }

  lemma BestUnique(a: AgentSnapshot, b: AgentSnapshot, agents: seq<AgentSnapshot>, rows: seq<AgentSnapshot>,
                   intent: M.Placement)
    requires (forall c :: c in agents <==> c in rows) && IsBest(a, agents, intent) && IsBest(b, rows, intent)
    ensures a == b
  {
    AgentsCompare(a, b, b, intent);
  }

  lemma SelectionUnordered(agents: seq<AgentSnapshot>, rows: seq<AgentSnapshot>, intent: M.Placement)
    requires AgentIdsDiffer(agents) && AgentIdsDiffer(rows) && forall a :: a in agents <==> a in rows
    ensures SelectClaimAgent(agents, intent) == SelectClaimAgent(rows, intent)
  {
    SelectsBest(agents, intent);
    SelectsBest(rows, intent);
    var a, b := SelectClaimAgent(agents, intent), SelectClaimAgent(rows, intent);
    if a.Some? && b.Some? {
      BestUnique(a.value, b.value, agents, rows, intent);
    }
  }
}
