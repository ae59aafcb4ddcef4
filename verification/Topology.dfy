/** Partitions, agents and the cutover of an agent from one partition to another.
    Every function returns the tables a transaction commits, or the error that
    rolls it back. */
module Topology {
  import opened Options
  import opened RowOrder
  import opened Tables

  // ---------------------------------------------------------------- queries

  /** Follow `merged_into` until an active partition; `visited` stops a cycle. */
  function Resolve(parts: map<Id, Partition>, name: Id, visited: set<Id>): (r: Outcome<Id>)
    decreases parts.Keys - visited
  {
    if name in visited then Err(MergeCycle)
    else if name !in parts then Err(MissingPartition)
    else if parts[name].active then Ok(name)
    else if parts[name].mergedInto.None? then Err(RetiredPartition)
    else Resolve(parts, parts[name].mergedInto.value, visited + {name})
  }

  function Canonical(parts: map<Id, Partition>, name: Id): (r: Outcome<Id>) {
    Resolve(parts, name, {})
  }

  predicate ActivePartition(parts: map<Id, Partition>, name: Id) {
    name in parts && parts[name].active
  }

  /** The partition an agent belongs to once every staged move has committed. */
  function Desired(agent: Agent): Id {
    Or(agent.pending, agent.partition)
  }

  predicate HasActiveAttempt(attempts: map<Id, Attempt>, g: Id) {
    exists a :: a in attempts && attempts[a].agent == g && attempts[a].state.Active?
  }

  /** Authority over the execution is closed and nothing can still be writing. */
  predicate ClosedSafely(s: Db, x: Id, now: real)
    requires x in s.executions
  {
    var e := s.executions[x];
    e.attempt in s.attempts && e.task in s.tasks ==>
      && !s.attempts[e.attempt].state.Active?
      && (e.attempt in s.leases ==> !s.leases[e.attempt].state.Active? || s.leases[e.attempt].expires <= now)
      && (s.tasks[e.task].mode.ReadOnly? || !e.Unsafe())
  }

  /** Some live execution of the agent runs on another target and is not safe to abandon. */
  predicate UnsafeElsewhere(s: Db, g: Id, target: Id, now: real) {
    exists x :: x in s.executions
      && s.executions[x].incarnation in s.incarnations
      && s.incarnations[s.executions[x].incarnation].agent == g
      && s.executions[x].Live()
      && s.executions[x].target != target
      && !ClosedSafely(s, x, now)
  }

  // ---------------------------------------------------------------- row updates

  function FenceOff(incs: map<Id, Incarnation>, g: Id, keep: Option<Id>): map<Id, Incarnation> {
    map i | i in incs ::
      if incs[i].agent == g && incs[i].Live() && keep != Some(incs[i].target)
      then incs[i].(state := IncarnationState.Lost) else incs[i]
  }

  function RetiredRow(agent: Agent): Agent {
    agent.(state := AgentState.Retired, current := None, pending := None, retire := false, available := None)
  }

  function RetireAgent(s: Db, g: Id): Db
    requires g in s.agents
  {
    s.(incarnations := FenceOff(s.incarnations, g, None), agents := s.agents[g := RetiredRow(s.agents[g])])
  }

  /** The agent belongs to `t` and keeps only incarnations on its target. */
  function CutoverRows(s: Db, g: Id, t: Id): Db
    requires g in s.agents && t in s.partitions
  {
    s.(incarnations := FenceOff(s.incarnations, g, Some(s.partitions[t].target)),
       agents := s.agents[g := s.agents[g].(partition := t, pending := None, retire := false)])
  }

  /** Commit desired membership at a boundary where nothing runs for the agent. */
  function CommitCutover(s: Db, g: Id, name: Id, now: real): Outcome<Db>
    requires g in s.agents
  {
    var t :- Canonical(s.partitions, name);
    if t !in s.partitions then Err(NotFound)
    else if HasActiveAttempt(s.attempts, g) then Err(InvalidTransition)
    else if UnsafeElsewhere(s, g, s.partitions[t].target, now) then Err(InvalidTransition)
    else Ok(CutoverRows(s, g, t))
  }

  /** Commit the cutover, or keep it as desired state of an unsafe suspended writer. */
  function RequestCutover(s: Db, g: Id, name: Id, now: real): Outcome<Db>
    requires g in s.agents
  {
    var t :- Canonical(s.partitions, name);
    if t !in s.partitions then Err(NotFound)
    else if UnsafeElsewhere(s, g, s.partitions[t].target, now) && s.agents[g].state.Suspended?
      && s.agents[g].current.None?
    then Ok(s.(agents := s.agents[g := s.agents[g].(pending := Some(t))]))
    else CommitCutover(s, g, t, now)
  }

  /** An EPHEMERAL partition keeps no idle agent. */
  function IdleRows(s: Db, g: Id, now: real): Db
    requires g in s.agents && s.agents[g].partition in s.partitions
  {
    if s.partitions[s.agents[g].partition].retention.Ephemeral? then RetireAgent(s, g)
    else s.(agents := s.agents[g := s.agents[g].(state := AgentState.Ready, current := None, pending := None,
                                                 available := Some(now))])
  }

  /** The assignment boundary: retire, or commit the desired partition and become READY. */
  function ReleaseAgent(s: Db, g: Id, now: real): Outcome<Db> {
    if g !in s.agents then Err(NotFound)
    else if s.agents[g].retire then Ok(RetireAgent(s, g))
    else
      var s1 :- CommitCutover(s, g, Desired(s.agents[g]), now);
      if s1.agents[g].partition !in s1.partitions then Err(NotFound) else Ok(IdleRows(s1, g, now))
  }

  function SuspendAgent(agents: map<Id, Agent>, g: Id): map<Id, Agent> {
    if g in agents && !agents[g].state.Retired?
    then agents[g := agents[g].(state := AgentState.Suspended, current := None, available := None)]
    else agents
  }

  function BirthAgent(s: Db, id: Id, name: Id, workstream: Option<Id>, tags: Option<set<Id>>, now: real): Outcome<Db> {
    if !ActivePartition(s.partitions, name) then Err(NotFound)
    else if id in s.agents then Err(Integrity)
    else Ok(s.(agents := s.agents[id := Agent(name, AgentState.Ready, workstream, Or(tags, s.partitions[name].tags),
                                              None, None, false, 0, Some(now), now)]))
  }

  // ---------------------------------------------------------------- partitions

  datatype PartitionSpec = PartitionSpec(name: Id, desired: int, retention: Retention, target: Id, profile: Id,
                                         tags: set<Id>)

  function UpsertPartition(s: Db, spec: PartitionSpec): Outcome<Db> {
    if spec.desired < 0 then Err(BadValue)
    else if spec.name in s.partitions then
      var p := s.partitions[spec.name];
      if !p.active || p.retention != spec.retention || p.target != spec.target || p.profile != spec.profile
         || p.tags != spec.tags || p.desired != spec.desired
      then Err(InvalidTransition)
      else Ok(s)
    else
      Ok(s.(revision := s.revision + 1,
            partitions := s.partitions[spec.name := Partition(spec.desired, spec.retention, spec.target, spec.profile,
                                                              spec.tags, true, None, s.revision + 1)]))
  }

  function ResizePartition(s: Db, name: Id, desired: int): Outcome<Db> {
    if desired < 0 then Err(BadValue)
    else if !ActivePartition(s.partitions, name) then Err(NotFound)
    else Ok(s.(revision := s.revision + 1,
               partitions := s.partitions[name := s.partitions[name].(desired := desired, revision := s.revision + 1)]))
  }

  // ---------------------------------------------------------------- pool reconciliation

  predicate IdleDrain(agent: Agent) {
    agent.state.Draining? && agent.current.None? && agent.pending.Some? && !agent.retire
  }

  /** Counted towards the desired capacity of `name`. */
  predicate Counted(agent: Agent, name: Id) {
    && Desired(agent) == name
    && (agent.state.Initializing? || agent.state.Ready? || agent.state.Assigned?
        || agent.state.Draining? || agent.state.Reviving?)
    && !(agent.state.Draining? && agent.retire)
  }

  function Members(agents: map<Id, Agent>, name: Id): set<Id> {
    set g | g in agents && Counted(agents[g], name)
  }

  function IdRank(k: Id): Rank { Rank(0, 0, 0.0, k) }

  function ByIdRows(keys: set<Id>): (rows: map<Id, Rank>)
    ensures Own(rows) && rows.Keys == keys
  {
    map k | k in keys :: IdRank(k)
  }

  /** Unordered SELECTs come back by id. */
  function ById(keys: set<Id>): (list: seq<Id>)
    ensures |list| == |keys|
    ensures forall k :: k in list <==> k in keys
  {
    Listing(ByIdRows(keys))
  }

  /** Who leaves first when a partition is over capacity. */
  function ExcessRows(agents: map<Id, Agent>, keys: set<Id>): (rows: map<Id, Rank>)
    requires keys <= agents.Keys
    ensures Own(rows) && rows.Keys == keys
  {
    map g | g in keys ::
      Rank(if agents[g].state.Assigned? then 1 else 0, if agents[g].state.Ready? then 0 else 1, -agents[g].created, g)
  }

  function ReleaseEach(s: Db, list: seq<Id>, now: real): Outcome<Db>
    decreases |list|
  {
    if list == [] then Ok(s)
    else
      var s1 :- ReleaseAgent(s, list[0], now);
      ReleaseEach(s1, list[1..], now)
  }

  function BirthEach(s: Db, name: Id, n: nat, born: nat, draw: nat -> Id, now: real): Outcome<Db>
    decreases n
  {
    if n == 0 then Ok(s)
    else
      var s1 :- BirthAgent(s, draw(born), name, None, None, now);
      BirthEach(s1, name, n - 1, born + 1, draw, now)
  }

  /** Nothing is assigned to the agent and it can go at once. */
  predicate Idle(agent: Agent) {
    (agent.state.Ready? || agent.state.Initializing? || agent.state.Reviving?) && agent.current.None?
  }

  function ShedRow(agent: Agent): Agent {
    if Idle(agent) then RetiredRow(agent) else agent.(state := AgentState.Draining, retire := true)
  }

  function Shed(s: Db, g: Id): Db
    requires g in s.agents
  {
    s.(agents := s.agents[g := ShedRow(s.agents[g])],
       incarnations := if Idle(s.agents[g]) then FenceOff(s.incarnations, g, None) else s.incarnations)
  }

  function ShedEach(s: Db, list: seq<Id>): Db
    decreases |list|
  {
    if list == [] then s
    else ShedEach(if list[0] in s.agents then Shed(s, list[0]) else s, list[1..])
  }

  /** The members that leave a partition with `n` too many. */
  function Surplus(agents: map<Id, Agent>, name: Id, n: nat): seq<Id>
    requires n <= |Members(agents, name)|
  {
    Listing(ExcessRows(agents, Members(agents, name)))[..n]
  }

  /** How many agents a partition lacks, or has too many. */
  function BornIn(s: Db, name: Id): nat
    requires name in s.partitions
  {
    var n := |Members(s.agents, name)|;
    if n <= s.partitions[name].desired then s.partitions[name].desired - n else 0
  }

  function ExcessIn(s: Db, name: Id): (n: nat)
    requires name in s.partitions
    ensures n <= |Members(s.agents, name)| && (n > 0 ==> BornIn(s, name) == 0)
    ensures |Members(s.agents, name)| + BornIn(s, name) == s.partitions[name].desired + n
  {
    var n := |Members(s.agents, name)|;
    if n <= s.partitions[name].desired then 0 else n - s.partitions[name].desired
  }

  function ReconcilePartition(s: Db, name: Id, born: nat, draw: nat -> Id, now: real): Outcome<Db>
    requires name in s.partitions
  {
    if ExcessIn(s, name) == 0 then BirthEach(s, name, BornIn(s, name), born, draw, now)
    else Ok(ShedEach(s, Surplus(s.agents, name, ExcessIn(s, name))))
  }

  /** The reconciled tables and the next unused draw. */
  function ReconcileNext(s: Db, name: Id, born: nat, draw: nat -> Id, now: real): Outcome<(Db, nat)> {
    if name !in s.partitions then Err(NotFound)
    else
      var s1 :- ReconcilePartition(s, name, born, draw, now);
      Ok((s1, born + BornIn(s, name)))
  }

  function ReconcileEach(s: Db, names: seq<Id>, born: nat, draw: nat -> Id, now: real): Outcome<Db>
    decreases |names|
  {
    if names == [] then Ok(s)
    else
      match ReconcileNext(s, names[0], born, draw, now)
      case Err(e) => Err(e)
      case Ok((s1, next)) => ReconcileEach(s1, names[1..], next, draw, now)
  }

  function ActiveNames(parts: map<Id, Partition>): set<Id> {
    set p | p in parts && parts[p].active
  }

  function IdleDrains(agents: map<Id, Agent>): (list: seq<Id>)
    ensures forall g :: g in list <==> g in agents && IdleDrain(agents[g])
  {
    ById(set g | g in agents && IdleDrain(agents[g]))
  }

  function ReconcilePool(s: Db, draw: nat -> Id, now: real): Outcome<Db> {
    var s1 :- ReleaseEach(s, IdleDrains(s.agents), now);
    ReconcileEach(s1, ById(ActiveNames(s1.partitions)), 0, draw, now)
  }

  // ---------------------------------------------------------------- moves

  /** A READY agent keeps its availability stamp or gets one now. */
  function ArrivedRow(agent: Agent, next: AgentState, now: real): Agent {
    agent.(state := next, available := if next.Ready? then Some(Or(agent.available, now)) else agent.available)
  }

  function MoveAgent(s: Db, g: Id, name: Id, now: real): Outcome<Db> {
    if g !in s.agents || !ActivePartition(s.partitions, name) then Err(NotFound)
    else if s.agents[g].state.Retired? then Err(InvalidTransition)
    else if s.agents[g].state.Assigned? || s.agents[g].current.Some?
    then Ok(s.(agents := s.agents[g := s.agents[g].(pending := Some(name))]))
    else
      var s1 :- RequestCutover(s, g, name, now);
      var next := if s.agents[g].state.Draining? then AgentState.Ready else s.agents[g].state;
      Ok(s1.(agents := s1.agents[g := ArrivedRow(s1.agents[g], next, now)]))
  }

  predicate Movable(agent: Agent, source: Id) {
    Desired(agent) == source && !agent.state.Retired? && !agent.retire
  }

  function MoveRows(agents: map<Id, Agent>, source: Id): (rows: map<Id, Rank>)
    ensures Own(rows) && rows.Keys == set g | g in agents && Movable(agents[g], source)
  {
    map g | g in agents && Movable(agents[g], source) ::
      Rank(if agents[g].state.Ready? && agents[g].current.None? then 0 else 1, 0,
           Or(agents[g].available, agents[g].created), g)
  }

  function MoveOne(s: Db, g: Id, name: Id, now: real): Outcome<Db>
    requires g in s.agents
  {
    var m := s.agents[g];
    if m.current.Some? || m.state.Assigned?
    then Ok(s.(agents := s.agents[g := m.(state := AgentState.Draining, pending := Some(name), available := None)]))
    else
      var s1 :- RequestCutover(s, g, name, now);
      if m.state.Draining?
      then Ok(s1.(agents := s1.agents[g := s1.agents[g].(state := AgentState.Ready, available := Some(now))]))
      else Ok(s1)
  }

  function MoveEach(s: Db, list: seq<Id>, name: Id, now: real): Outcome<Db>
    decreases |list|
  {
    if list == [] then Ok(s)
    else if list[0] !in s.agents then Err(NotFound)
    else
      var s1 :- MoveOne(s, list[0], name, now);
      MoveEach(s1, list[1..], name, now)
  }

  /** Desired capacity after the move. */
  function Shifted(s: Db, source: Id, target: Id, count: nat): Db
    requires ActivePartition(s.partitions, source) && ActivePartition(s.partitions, target)
    requires count <= s.partitions[source].desired
  {
    var rev := s.revision + 1;
    s.(revision := rev,
       partitions := s.partitions[source := s.partitions[source].(desired := s.partitions[source].desired - count,
         revision := rev)]
                                 [target := s.partitions[target].(desired := s.partitions[target].desired + count,
                                   revision := rev)])
  }

  function MoveCapacity(s: Db, source: Id, target: Id, count: int, now: real): Outcome<Db> {
    if source == target || count <= 0 then Err(BadValue)
    else if !ActivePartition(s.partitions, source) || !ActivePartition(s.partitions, target) then Err(NotFound)
    else if count > s.partitions[source].desired then Err(InvalidTransition)
    else
      var list := Listing(MoveRows(s.agents, source));
      MoveEach(Shifted(s, source, target, count), list[..if count <= |list| then count else |list|], target, now)
  }

  // ---------------------------------------------------------------- merge

  /** Nonterminal tasks of `source` are rescheduled on `target`. */
  function RebaseTasks(tasks: map<Id, Task>, source: Id, target: Id): map<Id, Task> {
    map t | t in tasks ::
      if tasks[t].partition == source && !tasks[t].Terminal() then tasks[t].(partition := target) else tasks[t]
  }

  function RebasePending(agents: map<Id, Agent>, source: Id, target: Id): map<Id, Agent> {
    map g | g in agents ::
      if agents[g].pending == Some(source) && !agents[g].state.Retired?
      then agents[g].(pending := Some(target)) else agents[g]
  }

  predicate Immediate(agent: Agent, source: Id) {
    agent.partition == source
    && (agent.state.Ready? || agent.state.Initializing? || agent.state.Reviving?
        || (agent.state.Draining? && agent.current.None?))
  }

  function ImmediateList(agents: map<Id, Agent>, source: Id): (list: seq<Id>)
    ensures forall g :: g in list <==> g in agents && Immediate(agents[g], source)
  {
    ById(set g | g in agents && Immediate(agents[g], source))
  }

  function MergeOne(s: Db, g: Id, source: Id, target: Id, now: real): Outcome<Db>
    requires g in s.agents
  {
    var wanted := Or(s.agents[g].pending, target);
    var desired := if wanted == source then target else wanted;
    if s.agents[g].state.Draining?
    then ReleaseAgent(s.(agents := s.agents[g := s.agents[g].(pending := Some(desired))]), g, now)
    else RequestCutover(s, g, desired, now)
  }

  function MergeEach(s: Db, list: seq<Id>, source: Id, target: Id, now: real): Outcome<Db>
    decreases |list|
  {
    if list == [] then Ok(s)
    else if list[0] !in s.agents then Err(NotFound)
    else
      var s1 :- MergeOne(s, list[0], source, target, now);
      MergeEach(s1, list[1..], source, target, now)
  }

  function StageMerged(agents: map<Id, Agent>, source: Id, target: Id): map<Id, Agent> {
    map g | g in agents ::
      if agents[g].partition == source
         && (agents[g].state.Assigned? || agents[g].state.Draining? || agents[g].state.Suspended?)
         && (agents[g].pending.None? || agents[g].pending == Some(source))
      then agents[g].(pending := Some(target)) else agents[g]
  }

  /** Tasks and staged moves of the source are rescheduled on the target. */
  function Rebased(s: Db, source: Id, target: Id): Db {
    s.(revision := s.revision + 1, tasks := RebaseTasks(s.tasks, source, target),
       agents := RebasePending(s.agents, source, target))
  }

  /** The source closes and hands its capacity to the target. */
  function CloseSource(s: Db, source: Id, target: Id, desired: nat): Db
    requires source in s.partitions && target in s.partitions
  {
    s.(partitions := s.partitions
         [source := s.partitions[source].(active := false, desired := 0, mergedInto := Some(target),
                                          revision := s.revision)]
         [target := s.partitions[target].(desired := desired, revision := s.revision)])
  }

  function MergePartitions(s: Db, source: Id, target: Id, now: real): Outcome<Db> {
    if source == target then Err(BadValue)
    else if !ActivePartition(s.partitions, source) || !ActivePartition(s.partitions, target) then Err(NotFound)
    else
      var s0 := Rebased(s, source, target);
      var s1 :- MergeEach(s0, ImmediateList(s0.agents, source), source, target, now);
      if !ActivePartition(s1.partitions, source) || !ActivePartition(s1.partitions, target) then Err(NotFound)
      else
        Ok(CloseSource(s1.(agents := StageMerged(s1.agents, source, target)), source, target,
                       s.partitions[source].desired + s.partitions[target].desired))
  }

  // ---------------------------------------------------------------- retirement

  predicate Departing(agent: Agent, name: Id) {
    agent.partition == name && agent.pending.Some? && agent.current.None? && !agent.state.Retired?
  }

  function DepartOne(s: Db, g: Id, now: real): Outcome<Db>
    requires g in s.agents
  {
    if s.agents[g].state.Draining? then ReleaseAgent(s, g, now)
    else if s.agents[g].pending.None? then Ok(s)
    else RequestCutover(s, g, s.agents[g].pending.value, now)
  }

  function DepartEach(s: Db, list: seq<Id>, now: real): Outcome<Db>
    decreases |list|
  {
    if list == [] then Ok(s)
    else if list[0] !in s.agents then Err(NotFound)
    else
      var s1 :- DepartOne(s, list[0], now);
      DepartEach(s1, list[1..], now)
  }

  predicate IdleRetirement(agent: Agent, name: Id) {
    agent.partition == name && agent.pending.None?
    && (agent.state.Ready? || agent.state.Initializing? || agent.state.Suspended? || agent.state.Reviving?)
  }

  function DepartingList(agents: map<Id, Agent>, name: Id): (list: seq<Id>)
    ensures forall g :: g in list <==> g in agents && Departing(agents[g], name)
  {
    ById(set g | g in agents && Departing(agents[g], name))
  }

  function RetiringList(agents: map<Id, Agent>, name: Id): (list: seq<Id>)
    ensures forall g :: g in list <==> g in agents && IdleRetirement(agents[g], name)
  {
    ById(set g | g in agents && IdleRetirement(agents[g], name))
  }

  function RetireEach(s: Db, list: seq<Id>): Db
    decreases |list|
  {
    if list == [] then s
    else RetireEach(if list[0] in s.agents then RetireAgent(s, list[0]) else s, list[1..])
  }

  function DrainAssigned(agents: map<Id, Agent>, name: Id): map<Id, Agent> {
    map g | g in agents ::
      if agents[g].partition == name && agents[g].pending.None? && agents[g].state.Assigned?
      then agents[g].(state := AgentState.Draining, retire := true) else agents[g]
  }

  predicate Unfinished(s: Db, name: Id) {
    exists t :: t in s.tasks && s.tasks[t].partition == name && !s.tasks[t].Terminal()
  }

  predicate Inbound(s: Db, name: Id) {
    exists g :: g in s.agents && s.agents[g].pending == Some(name) && !s.agents[g].state.Retired?
  }

  /** A member with an open writer-safety obligation. */
  predicate Obliged(s: Db, name: Id) {
    exists k :: k in s.escalations && s.escalations[k].Hold() && s.escalations[k].agent in s.agents
                && s.agents[s.escalations[k].agent].partition == name
                  && !s.agents[s.escalations[k].agent].state.Retired?
  }

  function Emptied(s: Db, name: Id): Db
    requires name in s.partitions
  {
    s.(revision := s.revision + 1,
       partitions := s.partitions[name := s.partitions[name].(active := false, desired := 0,
         revision := s.revision + 1)])
  }

  function RetirePartition(s: Db, name: Id, now: real): Outcome<Db> {
    if !ActivePartition(s.partitions, name) then Err(NotFound)
    else if Unfinished(s, name) || Inbound(s, name) || Obliged(s, name) then Err(InvalidTransition)
    else
      var s1 :- DepartEach(s, DepartingList(s.agents, name), now);
      var s2 := RetireEach(s1, RetiringList(s1.agents, name));
      if name !in s2.partitions then Err(NotFound)
      else Ok(Emptied(s2.(agents := DrainAssigned(s2.agents, name)), name))
  }

  // ---------------------------------------------------------------- revival

  function ReviveAgent(s: Db, g: Id, target: Id, now: real): Outcome<Db> {
    if g !in s.agents then Err(NotFound)
    else if s.agents[g].state.Retired? then Err(InvalidTransition)
    else if exists k :: k in s.escalations && s.escalations[k].agent == g && s.escalations[k].Hold()
      then Err(InvalidTransition)
    else if s.agents[g].current.Some? || HasActiveAttempt(s.attempts, g) then Err(InvalidTransition)
    else if !ActivePartition(s.partitions, s.agents[g].partition) then Err(NotFound)
    else if s.partitions[s.agents[g].partition].target != target then Err(InvalidTransition)
    else Ok(s.(agents := s.agents[g := s.agents[g].(state := AgentState.Ready, available := Some(now))]))
  }

  function MarkIncarnationLost(s: Db, i: Id, now: real): Outcome<Db> {
    if i !in s.incarnations then Err(NotFound)
    else if s.incarnations[i].state.Lost? || s.incarnations[i].state.Terminated? then Ok(s)
    else
      var g := s.incarnations[i].agent;
      var s1 := s.(incarnations := s.incarnations[i := s.incarnations[i].(state := IncarnationState.Lost)]);
      if g !in s.agents then Err(NotFound)
      else if s.agents[g].state.Ready?
      then Ok(s1.(agents := s1.agents[g := s1.agents[g].(state := AgentState.Reviving, available := None)]))
      else if s.agents[g].state.Draining? && s.agents[g].current.None? && s.agents[g].pending.Some?
      then ReleaseAgent(s1, g, now)
      else Ok(s1)
  }
}
