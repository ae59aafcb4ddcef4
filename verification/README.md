# Agentype: a verified model of the scheduler and the agent contracts

Three parts of the system, in Dafny.

**The scheduler.** `Tables` holds one map per table, `Topology` and `Work` say what each transaction
computes, and `Scheduler` is the object itself, whose methods change rows statement by statement and
roll back on an error. `Invariants` states what every reachable state satisfies. `TopologyOps`,
`QuietOps`, `ClaimOps`, `ExecutionOps`, `SubmitOps`, `SettleOps`, `CancelOps` and `ResolveOps` prove
that every operation keeps it. `Runs` makes the calls into steps and covers all runs. `Guarantees`,
`Safety`, `PoolExact`, `MergeChains` and `ClaimChoice` derive what the scheduler promises: writer
exclusion, fencing and its finality, the safety hold on agents, bounded attempts, no deadlock, the
batch barrier, exact pools, ordered merge chains and optimal claims. `Failures`, `Finishing`,
`Resolutions`, `Leases`, `Submissions`, `PoolChoice` and `PoolEffects` state in row fields when
operations commit and what they then do. `Witnessed` ties isolation and quiescence of every execution
to what the calls of the run said. `Dispatcher` drives the object with arbitrary adapter answers, and
`Restart` is one concrete run. `Decisions` is claim selection over row snapshots.

**The agent contracts.** `Capability`, `Contracts`, `Policies`, `Sources` and `Matching` model the
values, relations, folds and rankings, and `Grants` says what a grant covers. `Refinement`,
`Provisioning`, `MatchingProofs`, `Claims` and `Verdicts` characterise each verdict by an
if-and-only-if and prove the laws over it. `Json`, `Names`, `Documents`, `Decoding` and `RoundTrips`
model canonical documents of nine kinds, their encoders and decoders.

**Argument quoting.** `Quoting` pairs the Windows command-line printer with the parser of
Microsoft's "Parsing C command-line arguments".

Adapter answers, drawn ids and the clock are arguments of the calls. Times, budgets and quantities
are reals. Ids of rows are natural numbers; contract ids are strings.

Findings about the code:

- `one_execution_per_attempt` is not implied by the checks of `create_execution`. It alone refuses
  a second start after a FAILED report (`Guarantees.IndexRefusesExactly`, `Restart.IndexRefuses`).
- A merge gives source and target the same revision, so revisions along a merge chain need not
  increase strictly (`MergeChains.MergeTies`). They do exactly when the target of every merge was
  revised again afterwards (`MergeChains.StrictInRun`).
- The idle-drain loop of `reconcile_pool` meets no rows in reachable states, because a DRAINING agent
  always has a current task (`TopologyOps.NoIdleDrains`).
- A retry or release of a writer hold looks at more than that writer: even when it is vouched for,
  the call is refused while another execution of the agent may be writing on a target other than
  that of its home (`Resolutions.RetryExactly`, `Resolutions.ReleaseExactly`).
- A nack or ack that does not report quiescence takes back an earlier observation of it
  (`Witnessed.CallRecorded`).
- Refinement shrinks what a type can execute in every dimension except continuity, which may grow
  (`Refinement.ChainExecutes`, `Refinement.ContinuityGrows`).

## Model

| member | source | states |
|---|---|---|
| `Runs.ReachableInv` | src/local_agent_scheduler/core.py:78-2199 | Whatever is called, in any order, with any arguments and clock, every state reached from the empty tables satisfies the whole invariant `Inv`. |
| `SchedulerRuns.PerformAll` | src/local_agent_scheduler/core.py:78-2199 | Any sequence of calls on a new Scheduler object leaves exactly the tables the step relation computes, and a valid object. |
| `SchedulerRuns.Perform` | src/local_agent_scheduler/storage.py:782-794 | One call on the object is one step: on an error the tables are as before, otherwise they are the committed ones. |
| `Guarantees.ClaimsAreExclusive` | src/local_agent_scheduler/core.py:869-1011 | From a reachable state, whatever the call, a WRITE task that comes to be held had no earlier execution that is neither quiescence-confirmed nor attempt-isolated. |
| `Guarantees.UnsafeClosedSuspended` | src/local_agent_scheduler/core.py:2509-2552 | In a reachable state, a possibly live writer of a closed attempt of a non-cancelled WRITE task means that the task is SUSPENDED with an OPEN writer-quiescence escalation. |
| `Witnessed.CallRecorded` | src/local_agent_scheduler/core.py:1127-2199 | Whatever call commits, an execution row keeps the task, attempt, incarnation, target and isolation it was started with; its quiescence changes exactly as an observation, an ack, a nack or a vouching resolution said; a new row is STARTING, as its `create_execution` asked, and neither terminal nor quiescent. |
| `Witnessed.CreateRecorded` | src/local_agent_scheduler/core.py:1127-1174 | A committed `create_execution` adds one row, with the caller's attempt, target and isolation. |
| `Witnessed.LogAgrees` | src/local_agent_scheduler/core.py:1127-2199 | In every run, a row says isolated exactly when the call that started it said so, and quiescent exactly when the last committed call that spoke of it said so. |
| `Witnessed.ExclusiveInRun` | src/local_agent_scheduler/core.py:869-1011 | Writer exclusion over the calls of the run: when a WRITE task comes to be held, each earlier execution of it was started isolated or the last committed word on it was that it is quiescent. |
| `Witnessed.UnquietSuspended` | src/local_agent_scheduler/core.py:2509-2552 | In every run, a writer of a closed attempt that was not started isolated and not last reported quiescent leaves its non-cancelled task SUSPENDED with an OPEN writer-quiescence escalation. |
| `Guarantees.FencingExact` | src/local_agent_scheduler/core.py:957-1011 | In a reachable state a task is LEASED or RUNNING exactly while its current pointer names an ACTIVE attempt with an ACTIVE lease; every ACTIVE attempt is that one and carries the task's epoch; the epoch is the number of attempts. |
| `Guarantees.AuthorityIs` | src/local_agent_scheduler/core.py:2331-2357 | Under the fencing invariant the authority check says: the attempt is ACTIVE, the epoch is its own and its lease has not run out. |
| `Guarantees.LostForever` | src/local_agent_scheduler/core.py:1373-1422 | With a clock that never runs back, an attempt that fails the authority check fails it after every continuation of the run. |
| `Guarantees.StaleForever` | src/local_agent_scheduler/core.py:1127-1238 | Once an attempt has failed the authority check, none of its starts, confirmations, heartbeats, checkpoints, acks or nacks ever changes the tables again. |
| `Guarantees.StaleRefused` | src/local_agent_scheduler/core.py:2331-2357 | Every call that carries an attempt and epoch is refused without authority for them. |
| `Guarantees.IndexesHold` | src/local_agent_scheduler/storage.py:134-287 | In every reachable state: one ACTIVE attempt per task and agent, one attempt per number, one ACTIVE lease per task and one lease per epoch, one agent per task, one OPEN escalation per task, one writer hold per agent, one result per task, one execution per attempt, one live execution per incarnation, one incarnation per agent and generation. |
| `Guarantees.IndexRefusesExactly` | src/local_agent_scheduler/storage.py:664-671 | `one_execution_per_attempt` alone refuses `create_execution` exactly when the attempt holds authority, already has an execution, its incarnation is not busy and the new id is fresh. |
| `Guarantees.IndexNeeded` | src/local_agent_scheduler/storage.py:664-671 | Whenever that index alone refuses, the call without it would give the attempt two executions. |
| `Guarantees.FailedThenRestarted` | src/local_agent_scheduler/core.py:1271-1371 | From any reachable state with a live execution under authority, a FAILED report followed by a second start is refused by the index alone. |
| `Restart.IndexRefuses` | src/local_agent_scheduler/core.py:1127-1174 | Such a state is reachable: a concrete run of six calls ends where only the index refuses. |
| `Guarantees.HoldLasts` | src/local_agent_scheduler/core.py:2102-2199 | An OPEN writer-quiescence escalation keeps its row through every run in which no resolution of it commits; refused resolutions may occur freely. |
| `Guarantees.HeldAgentOutOfPlay` | src/local_agent_scheduler/core.py:736-748 | Through any such run the named agent stays SUSPENDED and unassigned, has no ACTIVE attempt and exactly one hold, and fits no task. |
| `Safety.HeldRefused` | src/local_agent_scheduler/core.py:1879-1910 | Neither reviving the held agent nor retiring its partition commits. |
| `Guarantees.TerminalForever` | src/local_agent_scheduler/core.py:1951-2100 | A COMPLETED or CANCELLED task row never changes again. |
| `Guarantees.AttemptsBounded` | src/local_agent_scheduler/core.py:2148-2163 | In every run a task has at most `max_attempts` attempts plus one per committed Root retry of it. |
| `Guarantees.NeverDeadlocked` | src/local_agent_scheduler/core.py:2437-2477 | An ACTIVE batch of a reachable state has a QUEUED, LEASED, RUNNING or RETRY_WAIT task. |
| `Safety.ReleasedExactly` | src/local_agent_scheduler/core.py:2437-2444 | A non-cancelled task is BLOCKED exactly while something it depends on is not COMPLETED. |
| `Guarantees.BatchIsItsTasks` | src/local_agent_scheduler/core.py:2446-2477 | A batch that is not cancelled always has the state its tasks dictate; a cancelled one has only terminal tasks. |
| `Guarantees.NotifiedOnce` | src/local_agent_scheduler/core.py:2446-2477 | In a reachable state there is exactly one BATCH_RESULTS_READY for a batch whose tasks are all COMPLETED and none for any other. |
| `Guarantees.ResultOnce` | src/local_agent_scheduler/core.py:1524-1558 | In a reachable state there is exactly one result per COMPLETED task and none for any other. |
| `Guarantees.TopologyClosed` | src/local_agent_scheduler/core.py:141-167 | In a reachable state every nonterminal task and the desired partition of every non-retired agent is active, and `_canonical_partition` never reports a cycle. |
| `Safety.MergeChainOrdered` | src/local_agent_scheduler/core.py:631-710 | A merged partition points to one revised no earlier, and strictly later when that one is inactive too. |
| `TopologyOps.NoIdleDrains` | src/local_agent_scheduler/core.py:404-410 | In a state with the invariant, no DRAINING agent lacks a current task, so the idle-drain loop has no rows. |
| `MergeChains.StrictInRun` | src/local_agent_scheduler/core.py:534-785 | For every run: each merge link goes to a strictly greater revision exactly when the target of every merge was revised again later (by a resize, move, merge or retirement). |
| `MergeChains.TiedInRun` | src/local_agent_scheduler/core.py:534-785 | For every run: a merged partition has its target's revision exactly when no committed call has revised the target since that merge. |
| `MergeChains.TiedExactly` | src/local_agent_scheduler/core.py:534-785 | Step by step, whatever the call: a link is tied after it exactly when the call made it, or it was tied before and the call did not revise its target. |
| `MergeChains.StrictExactly` | src/local_agent_scheduler/core.py:631-710 | From strictly ordered links, a call leaves them strictly ordered exactly when it does not commit a merge. |
| `MergeChains.MergeTies` | src/local_agent_scheduler/core.py:631-710 | A reachable state whose links are not strictly ordered: two upserts and a merge. |
| `Runs.AfterEvolves` | src/local_agent_scheduler/core.py:1373-2199 | What one call may do to existing rows: closed attempts stay closed, expired leases are not extended, terminal tasks and open holds are untouched, results and notices are only added, and the retry budget is only exceeded by a Root retry. |
| `SettleOps.NackInv` | src/local_agent_scheduler/core.py:1561-1680 | Every committed nack, retried or suspended, ends in a state that satisfies the invariant and evolves existing rows only as allowed. |
| `Failures.NackFails` | src/local_agent_scheduler/core.py:1561-1680 | After a nack the task is RETRY_WAIT exactly when the cause is among its retry classes, attempts are left and no writer may be left behind, and is then due at the base backoff doubled once per earlier attempt and capped. Otherwise it is SUSPENDED with a new OPEN escalation for the cause, or for the unknown writer. The agent is held for an unknown writer and handed back otherwise; lease, attempt and execution rows are closed as reported and all other rows stay. |
| `Failures.ExpiryEnds` | src/local_agent_scheduler/core.py:1692-1802 | Every overdue attempt, and no other, is ended by the same rule with the cause EXECUTION_LOST, judged on the state before the loop; executions and all rows of other attempts stay, and afterwards no ACTIVE lease is overdue. |
| `Finishing.AckEnds` | src/local_agent_scheduler/core.py:1424-1559 | An ack of a safe writer leaves its task COMPLETED with one new result, queues exactly the dependants that waited for it last, and hands back the agent; an ack that leaves a writer behind suspends task and agent and stores no result. |
| `SettleOps.AckInv` | src/local_agent_scheduler/core.py:1424-1559 | The same for every committed ack, completed or suspended for an unconfirmed writer. |
| `SettleOps.ExpireInv` | src/local_agent_scheduler/core.py:1692-1802 | The same for the expiry loop over every set of expired leases. |
| `CancelOps.CancelTaskInv` | src/local_agent_scheduler/core.py:1951-2020 | The same for cancelling one task, whether its agent is freed or put on hold. |
| `CancelOps.CancelBatchInv` | src/local_agent_scheduler/core.py:2022-2100 | The same for the batch cancellation loop, although task rows are only stopped at its end. |
| `Finishing.CancelEnds` | src/local_agent_scheduler/core.py:1951-2020 | Cancelling leaves a terminal task alone; any other becomes CANCELLED, its attempt and lease are closed, and its agent is held exactly when an unvouched writer may be left behind. |
| `Finishing.CancelBatchEnds` | src/local_agent_scheduler/core.py:2022-2100 | Cancelling a batch makes exactly its nonterminal tasks CANCELLED, ends exactly their running attempts in the same way and drops its open questions except writer holds. |
| `Resolutions.RetryExactly` | src/local_agent_scheduler/core.py:2102-2199 | A retry commits if and only if the escalation is OPEN on a SUSPENDED task and, for a writer hold, the writer of a WRITE task is vouched for or isolated and nothing bars its agent from going home. Then the task is QUEUED with no due time, the escalation RESOLVED and, for a hold, the last execution is finished and the agent REVIVING or RETIRED. |
| `Resolutions.ReleaseExactly` | src/local_agent_scheduler/core.py:2102-2199 | A release commits if and only if the OPEN escalation is a writer hold of a CANCELLED task, vouched for or isolated, whose agent may go home. Then it is RESOLVED, the last execution finished and the agent REVIVING or RETIRED, and no task changes. |
| `Resolutions.DismissExactly` | src/local_agent_scheduler/core.py:2102-2199 | A cancelling resolution commits if and only if the escalation is OPEN; the task becomes CANCELLED, and the escalation RESOLVED unless it is a writer hold, which stays OPEN. |
| `Leases.ClaimGrants` | src/local_agent_scheduler/core.py:957-1011 | A claim adds one ACTIVE attempt and one ACTIVE lease of the asked length under the task's next epoch, makes the task LEASED and the agent ASSIGNED to it on the task's workstream, and changes no execution, escalation or batch. |
| `Leases.ConfirmExactly` | src/local_agent_scheduler/core.py:1191-1238 | A start is confirmed if and only if the authority is in force and the execution is the attempt's own and STARTING, RUNNING or UNKNOWN; execution and task are then RUNNING and the lease extended. |
| `Leases.HeartbeatExactly` | src/local_agent_scheduler/core.py:1373-1395 | A heartbeat commits if and only if the authority is in force and an execution of the attempt is RUNNING; it changes only the end of that lease. |
| `Leases.RenewExactly` | src/local_agent_scheduler/core.py:1397-1422 | A lease is extended if and only if it is supervised, in force and its execution RUNNING; every other lease and table stays. |
| `Leases.PresenceIs` | src/local_agent_scheduler/core.py:1067-1122 | The state an incarnation is left in, for every observed state, confirmation and reuse flag. |
| `Submissions.SubmitCarries` | src/local_agent_scheduler/core.py:790-866 | A submission inserts exactly its specs: each row carries the mode, priority, tags, continuity, backoff and budget of its spec, depends on exactly the tasks its dependency names refer to, and is QUEUED exactly when it names none. |
| `ResolveOps.ResolveInv` | src/local_agent_scheduler/core.py:2102-2199 | The same for retry, cancel and release resolutions; only a retry sends a task back to the queue. |
| `TopologyOps.MergeInv` | src/local_agent_scheduler/core.py:631-710 | Merging ends in a state that satisfies the invariant and disturbs no attempt, lease, execution or escalation. |
| `TopologyOps.RetirePartitionInv` | src/local_agent_scheduler/core.py:713-785 | The same for retiring a partition. |
| `TopologyOps.ReconcileInv` | src/local_agent_scheduler/core.py:401-454 | The same for pool reconciliation. |
| `ExecutionOps.CreateInv` | src/local_agent_scheduler/core.py:1030-1174 | Starting an execution, on the attempt's incarnation or a newly ensured one, ends in a state that satisfies the invariant. |
| `SubmitOps.SubmitInv` | src/local_agent_scheduler/core.py:790-866 | So does submitting a batch: its dependencies get a numbering, so they never close a cycle. |
| `TaskGraph.AssertAcyclic` | src/local_agent_scheduler/core.py:2272-2288 | The depth-first search accepts a graph exactly when it has no cycle, and exactly when its nodes can be numbered downwards along dependencies. |
| `ClaimChoice.ClaimOptimal` | src/local_agent_scheduler/core.py:904-955 | The scan finds the pair of an agent and a task it suits that comes before every other, in row fields: higher priority, earlier creation, lower id; inside a task the same workstream where continuity matters, then longest available, then lower id. It finds none only when no agent suits any task. |
| `ClaimChoice.NextAvailableOptimal` | src/local_agent_scheduler/core.py:904-955 | The call claims a pair if and only if it is that first pair, so row order is irrelevant, and claims none if and only if no READY agent suits a due QUEUED task of an ACTIVE batch on its active partition. |
| `ClaimChoice.ClaimNextOptimal` | src/local_agent_scheduler/core.py:869-902 | An idle agent is given the offer ahead of all others, in row fields: same workstream, higher priority, earlier creation, lower id; nothing is claimed exactly when it is not idle or has no offer. |
| `Decisions.VisitsInOrder` | crates/agentype-core/src/decisions.rs:57-125 | The visiting order lists exactly the due QUEUED tasks, by priority, then creation, then id, the same for every order of the rows. |
| `Decisions.SelectsBest` | crates/agentype-core/src/decisions.rs:155-202 | An agent is selected whenever one suits the placement, and it precedes every other suitable one by workstream, time available and id. |
| `Decisions.SelectionUnordered` | crates/agentype-core/src/decisions.rs:155-202 | The selection does not depend on the order of the rows. |
| `PoolExact.ReconcileExact` | src/local_agent_scheduler/core.py:401-454 | After `reconcile_pool` every active partition counts exactly its desired number of members. |
| `PoolExact.ReconcileEachExact` | src/local_agent_scheduler/core.py:401-454 | The loop over any list of distinct partitions makes each exact and leaves the membership of all others unchanged. |
| `PoolExact.ReconcileIdempotent` | src/local_agent_scheduler/core.py:401-454 | A second reconciliation, with any ids and clock, changes nothing. |
| `PoolChoice.ReconcileSheds` | src/local_agent_scheduler/core.py:401-454 | Whoever leaves a partition goes before whoever stays: the unassigned before the assigned, then the READY, then the youngest, then the lower id. An idle one is RETIRED, a busy one DRAINING; agents that count in no active partition keep their rows. |
| `PoolChoice.CapacityMoves` | src/local_agent_scheduler/core.py:556-629 | The agents moved are as many as asked, or all there are, chosen idle first, then longest available, then by id; they belong to the target and every other row stays. |
| `PoolEffects.MoveAgentGoes` | src/local_agent_scheduler/core.py:500-532 | Moving changes one agent, which then belongs to an active partition; an assigned one only has the move staged. |
| `PoolEffects.EnsureServes` | src/local_agent_scheduler/core.py:456-498 | Afterwards every QUEUED task of an ACTIVE batch on an active partition has an agent of its partition with its tags, and no row but new agents changed. |
| `PoolEffects.MergeHandsOver` | src/local_agent_scheduler/core.py:631-710 | Merging hands every nonterminal task and every agent at home in the source to the target, and no other. |
| `PoolEffects.RetireExactly` | src/local_agent_scheduler/core.py:713-785 | A partition is retired if and only if it is active, its tasks are terminal, nobody is moving in and it holds no suspended writer; it is then closed and empty and its members RETIRED. |
| `PoolEffects.ReviveExactly` | src/local_agent_scheduler/core.py:1879-1910 | An agent is revived if and only if the row facts allow it, and is then READY and available from now. |
| `PoolEffects.MarkLostDone` | src/local_agent_scheduler/core.py:1912-1936 | A live incarnation becomes LOST and its READY agent REVIVING; one already over changes nothing. |
| `PoolEffects.UpsertExactly` | src/local_agent_scheduler/core.py:78-139 | A declaration is accepted if and only if the capacity is not negative and the name is new or its active row is declared the same; only a new name changes anything. |
| `PoolEffects.BirthExactly` | src/local_agent_scheduler/core.py:350-399 | An agent is born if and only if the partition is active and the id is new, READY and with the partition's tags unless given its own. |
| `PoolExact.MoveConserves` | src/local_agent_scheduler/core.py:556-629 | Moving capacity conserves total desired capacity. |
| `PoolExact.MergeConserves` | src/local_agent_scheduler/core.py:631-710 | Merging conserves total desired capacity, empties and closes the source, and gives source and target the same new revision. |
| `SchedulerCore.Scheduler.UpsertPartition` | src/local_agent_scheduler/core.py:78-139 | Creates a partition or accepts an identical redeclaration; every change of an existing one is refused. Keeps `Valid()`. |
| `SchedulerCore.Scheduler.ResizePartition` | src/local_agent_scheduler/core.py:534-554 | Sets the desired capacity of an active partition. Keeps `Valid()`. |
| `SchedulerCore.Scheduler.BirthAgent` | src/local_agent_scheduler/core.py:350-399 | Inserts a READY agent in an active partition. Keeps `Valid()` and evolves existing rows only as allowed. |
| `SchedulerCore.Scheduler.ReconcilePool` | src/local_agent_scheduler/core.py:401-454 | On success every active partition counts exactly its desired members. Keeps `Valid()` and evolves existing rows only as allowed. |
| `SchedulerCore.Scheduler.EnsureTaskConsumers` | src/local_agent_scheduler/core.py:456-498 | Births a consumer for each waiting task nobody serves. Keeps `Valid()` and evolves existing rows only as allowed. |
| `SchedulerCore.Scheduler.MoveAgent` | src/local_agent_scheduler/core.py:500-532 | Moves, or stages the move of, one agent. Keeps `Valid()` and evolves existing rows only as allowed. |
| `SchedulerCore.Scheduler.MoveCapacity` | src/local_agent_scheduler/core.py:556-629 | Total desired capacity is unchanged. Keeps `Valid()` and evolves existing rows only as allowed. |
| `SchedulerCore.Scheduler.MergePartitions` | src/local_agent_scheduler/core.py:631-710 | Total desired capacity is unchanged. Keeps `Valid()` and evolves existing rows only as allowed. |
| `SchedulerCore.Scheduler.RetirePartition` | src/local_agent_scheduler/core.py:713-785 | Closes a partition nothing obliges. Keeps `Valid()` and evolves existing rows only as allowed. |
| `SchedulerCore.Scheduler.ReviveAgent` | src/local_agent_scheduler/core.py:1879-1910 | Makes a revivable agent READY. Keeps `Valid()` and evolves existing rows only as allowed. |
| `SchedulerCore.Scheduler.MarkIncarnationLost` | src/local_agent_scheduler/core.py:1912-1936 | Marks an incarnation lost and sends its idle agent to revival. Keeps `Valid()` and evolves existing rows only as allowed. |
| `SchedulerCore.Scheduler.SubmitBatch` | src/local_agent_scheduler/core.py:790-866 | Inserts a whole batch, each row carrying its spec, or leaves the tables as they were. Keeps `Valid()` and evolves existing rows only as allowed. |
| `SchedulerCore.Scheduler.ClaimNextAvailable` | src/local_agent_scheduler/core.py:904-955 | Claims the first compatible pair and grants it a lease; a claimed WRITE task has no execution that may still write. Keeps `Valid()` and evolves existing rows only as allowed. |
| `SchedulerCore.Scheduler.ClaimNext` | src/local_agent_scheduler/core.py:869-902 | Claims the agent's best offer and grants it a lease; a claimed WRITE task has no execution that may still write. Keeps `Valid()` and evolves existing rows only as allowed. |
| `SchedulerCore.Scheduler.CreateExecution` | src/local_agent_scheduler/core.py:1127-1174 | Refused, with the tables unchanged, without authority. Otherwise records the execution as the caller asked. Keeps `Valid()` and evolves existing rows only as allowed. |
| `SchedulerCore.Scheduler.ConfirmRunning` | src/local_agent_scheduler/core.py:1191-1238 | Refused, with the tables unchanged, without authority. Keeps `Valid()` and evolves existing rows only as allowed. |
| `SchedulerCore.Scheduler.RecordStartAmbiguity` | src/local_agent_scheduler/core.py:1240-1269 | Refused, with the tables unchanged, without authority. Keeps `Valid()` and evolves existing rows only as allowed. |
| `SchedulerCore.Scheduler.RecordPhysicalOutcome` | src/local_agent_scheduler/core.py:1271-1371 | Records an allowed physical transition; confirmations are only added. Keeps `Valid()`. |
| `SchedulerCore.Scheduler.Heartbeat` | src/local_agent_scheduler/core.py:1373-1395 | Refused, with the tables unchanged, without authority. Keeps `Valid()` and evolves existing rows only as allowed. |
| `SchedulerCore.Scheduler.RenewActiveLeases` | src/local_agent_scheduler/core.py:1397-1422 | Extends exactly the renewable leases among the supervised. Keeps `Valid()` and evolves existing rows only as allowed. |
| `SchedulerCore.Scheduler.AckSuccess` | src/local_agent_scheduler/core.py:1424-1559 | Refused, with the tables unchanged, without authority. Otherwise completes the task, or suspends it for the writer left behind. Keeps `Valid()` and evolves existing rows only as allowed. |
| `SchedulerCore.Scheduler.Nack` | src/local_agent_scheduler/core.py:1561-1680 | Refused, with the tables unchanged, without authority. Otherwise retries or suspends the task exactly as the report and the task's retry rule say. Keeps `Valid()` and evolves existing rows only as allowed. |
| `SchedulerCore.Scheduler.PromoteRetryWait` | src/local_agent_scheduler/core.py:1682-1690 | Queues exactly the due RETRY_WAIT tasks. Keeps `Valid()` and evolves existing rows only as allowed. |
| `SchedulerCore.Scheduler.ExpireLeases` | src/local_agent_scheduler/core.py:1692-1802 | Ends every overdue attempt by the retry rule, or none; afterwards none is overdue. Keeps `Valid()` and evolves existing rows only as allowed. |
| `SchedulerCore.Scheduler.PromoteCheckpoint` | src/local_agent_scheduler/core.py:1804-1857 | Refused, with the tables unchanged, without authority. Keeps `Valid()` and evolves existing rows only as allowed. |
| `SchedulerCore.Scheduler.AckResult` | src/local_agent_scheduler/core.py:1859-1877 | Marks one result consumed. Keeps `Valid()`. |
| `SchedulerCore.Scheduler.CancelTask` | src/local_agent_scheduler/core.py:1951-2020 | Cancels one task and stops its attempt, or leaves the tables as they were. Keeps `Valid()` and evolves existing rows only as allowed. |
| `SchedulerCore.Scheduler.CancelBatch` | src/local_agent_scheduler/core.py:2022-2100 | Cancels a whole batch and stops its attempts, or leaves the tables as they were. Keeps `Valid()` and evolves existing rows only as allowed. |
| `SchedulerCore.Scheduler.ResolveEscalation` | src/local_agent_scheduler/core.py:2102-2199 | Commits if and only if the resolution is admissible in row terms, with the effects it names; only a retry pardons its task. Keeps `Valid()`. |
| `Dispatch.Dispatcher.DispatchReady` | src/local_agent_scheduler/runtime.py:138-252 | The loop ends for every sequence of adapter answers because the queue shrinks each turn; on success no compatible pair is left and the count returned is the number of executions admitted. The attempts opened are exactly those of the turns taken, one each. |
| `Dispatch.Dispatcher.TakeTurn` | src/local_agent_scheduler/runtime.py:138-252 | A turn that claims a pair opens one fresh attempt and strictly shrinks the queue; one that claims none opens no attempt and, without an error, means no pair is compatible. |
| `Dispatch.Dispatcher.DispatchClaim` | src/local_agent_scheduler/runtime.py:138-252 | One claim never grows the queue or loses an execution, and admits as many executions as it reports. |
| `Dispatch.Dispatcher.RenewSupervised` | src/local_agent_scheduler/runtime.py:101-108 | Only leases of admitted attempts are renewed, and every admission names an execution of its attempt. |
| `Dispatch.Dispatcher.ClearAdmissions` | src/local_agent_scheduler/runtime.py:97-99 | Once admissions are cleared, no renewal touches a lease until something is admitted again. |
| `Dispatch.Dispatcher.ConfirmStart` | src/local_agent_scheduler/runtime.py:138-252 | A confirmed start is admitted and RUNNING; a start that lost authority is recorded and not admitted. |
| `Capability.JoinExact` | crates/agentype-agent-contract/src/capability.rs:286-322 | The join of two requirements is satisfied by exactly the values that satisfy both, and is missing exactly when no value does. |
| `Policies.FoldMeets` | crates/agentype-agent-contract/src/requirement.rs:196-282 | A requirement keeps the task's demands and obeys the policy exactly when the fold succeeds and the requirement is at least as tight as its result; tightness of workspace, network and continuity is stated on the values. |
| `Policies.FoldAllWeakest` | crates/agentype-agent-contract/src/requirement.rs:196-282 | The same for any list of policies folded in turn: the result is the weakest requirement obeying all, and a failed fold means there is none. |
| `Policies.FoldAllObeys` | crates/agentype-agent-contract/src/requirement.rs:214-282 | A successful fold stays under every ceiling without weakening isolation, continuity or a pin. |
| `Policies.FoldAllUnordered` | crates/agentype-agent-contract/src/requirement.rs:214-282 | Lists with the same policies, in any order and multiplicity, fold to the same outcome. |
| `Policies.FoldIdempotent` | crates/agentype-agent-contract/src/requirement.rs:214-282 | Folding a policy again changes nothing. |
| `Refinement.ExecuteIff` | crates/agentype-agent-contract/src/predicates.rs:221-331 | `can_execute` accepts exactly when the contract is valid, every demanded capability is met and every other dimension fits: a WRITE demand needs WRITE, an ENABLED one ENABLED, a DISABLED type serves only DISABLED demands, a LOGICAL demand needs LOGICAL. |
| `Refinement.RefinementIff` | crates/agentype-agent-contract/src/predicates.rs:854-914 | `is_valid_refinement` accepts exactly when both contracts are valid, authority narrows in every dimension and continuity is kept, without reference to ranks. |
| `Refinement.AuthorityIff` | crates/agentype-agent-contract/src/predicates.rs:813-832 | Authority is no wider exactly when purposes, affinity, budget, lifecycle, workspace, network, isolation, sandbox, anchor and every capability narrow, each stated on the values. |
| `Refinement.RefinesItself` | crates/agentype-agent-contract/src/predicates.rs:854-914 | A type refines itself exactly when its contract is valid. |
| `Refinement.RefinementTransits` | crates/agentype-agent-contract/src/predicates.rs:633-749 | Refinement is transitive. |
| `Refinement.ChainExecutes` | crates/agentype-agent-contract/src/predicates.rs:221-331 | Along any chain of refinements, a task the derived type can execute is executable by the base exactly when the base meets the task's continuity. |
| `Refinement.ContinuityGrows` | crates/agentype-agent-contract/src/predicates.rs:854-914 | The condition is needed: some refinement executes a task its base cannot. |
| `MatchingProofs.SpecificityTransits` | crates/agentype-agent-contract/src/predicates.rs:813-849 | Specificity composes unless it returns to the first type's own revision, which a revision that fixes its contract cannot. |
| `MatchingProofs.SpecificityStrict` | crates/agentype-agent-contract/src/predicates.rs:835-849 | Specificity is irreflexive and asymmetric. |
| `MatchingProofs.DominationGrows` | crates/agentype-agent-contract/src/matching.rs:105-114 | Domination counts increase strictly along specificity inside a relation class. |
| `Matching.MatchExistingAgents` | crates/agentype-agent-contract/src/matching.rs:142-242 | Collecting, counting and sorting computes `Matches`, including the refusal of a mismatched pin. |
| `MatchingProofs.ReturnsEligible` | crates/agentype-agent-contract/src/matching.rs:142-242 | The result holds each candidate that suits the placement, can execute the task and respects the pin as often as it was offered, and nothing else. |
| `MatchingProofs.RankedInOrder` | crates/agentype-agent-contract/src/matching.rs:142-242 | No candidate stands behind one it should precede by relation class, number of more specific rivals, same workstream, LOGICAL continuity, time available and id, all stated in candidate and contract fields. |
| `MatchingProofs.SpecificFirst` | crates/agentype-agent-contract/src/matching.rs:142-242 | Relation classes come in rank order, and nobody stands behind a candidate of its class that is strictly less specific. |
| `MatchingProofs.OrderIrrelevant` | crates/agentype-agent-contract/src/matching.rs:142-242 | With distinct agent ids the result is the same for every permutation of the input. |
| `Sources.ValidateClaims` | crates/agentype-agent-contract/src/predicates.rs:74-104 | The loop with its `seen` list accepts exactly when every shape is right and every reference resolves, with the same first error. |
| `Provisioning.ResolveIff` | crates/agentype-agent-contract/src/predicates.rs:27-50 | A reference resolves exactly when at most one value is declared there, to that value. |
| `Provisioning.ProvisionIff` | crates/agentype-agent-contract/src/predicates.rs:335-483 | `can_provision` accepts exactly when the records are sound and in service under evidence for exactly them, the safety facts are enforced, and each present capability is met by a supplied value. |
| `Provisioning.ProvisionTaskIff` | crates/agentype-agent-contract/src/predicates.rs:493-619 | `can_provision_task` accepts exactly when, the agent type can execute the task and, besides that, each capability demanded by agent type or task is answered by one value satisfying both, imported for security classes and within the envelope otherwise, and the safety demands of both are enforced. |
| `Claims.CanonicalizeClaims` | crates/agentype-agent-contract/src/canonical.rs:75-144 | The emptying, sorting and grouping loops compute `CanonicalClaims`; a refusal leaves the list empty. |
| `Claims.CanonicalIff` | crates/agentype-agent-contract/src/canonical.rs:75-144 | A canonical form exists exactly when shapes are right and each reference has one value and one speaking claim; it lists the speaking claims in increasing order. |
| `Claims.CanonicalUnordered` | crates/agentype-agent-contract/src/canonical.rs:75-144 | Success and output are the same for every order and multiplicity of the claims. |
| `Claims.CanonicalAgain` | crates/agentype-agent-contract/src/canonical.rs:75-144 | Canonicalizing again changes nothing. |
| `Claims.ResolvesAlike` | crates/agentype-agent-contract/src/canonical.rs:75-144 | Every reference resolves to the value it resolved to before. |
| `Verdicts.ClaimsVerdict` | crates/agentype-agent-contract/src/canonical.rs:75-144 | Canonicalizing the claims of source and config never changes whether `can_provision` or `can_provision_task` accepts. |
| `Verdicts.CanonicalVerdict` | crates/agentype-agent-contract/src/canonical.rs:148-200 | Canonicalizing agent type, source and config changes no execution or provisioning verdict. |
| `Verdicts.LabelsIrrelevant` | crates/agentype-agent-contract/src/predicates.rs:335-619 | Inputs that differ only in assurance labels and provenance get the same provisioning verdicts. |
| `Json.CanonicalExactly` | crates/agentype-agent-contract/src/canonical.rs:408-422 | Two written forms have the same canonical form exactly when they are the same tree. |
| `Json.CanonicalKeeps` | crates/agentype-agent-contract/src/canonical.rs:408-422 | Sorting names changes no lookup at any depth. |
| `Json.CanonicalIdempotent` | crates/agentype-agent-contract/src/canonical.rs:408-422 | Sorting again changes nothing. |
| `Json.CanonicalTidy` | crates/agentype-agent-contract/src/canonical.rs:408-422 | In the canonical form names increase in every object. |
| `Decoding.ReadEach` | crates/agentype-agent-contract/src/decode.rs:249-267 | The list and set loops read every element or stop at the first refused one. |
| `Decoding.FillMap` | crates/agentype-agent-contract/src/decode.rs:224-237 | The map loop reads every entry and refuses a key that comes twice. |
| `Names.Spellings` | crates/agentype-agent-contract/src/canonical.rs:222-276 | The written spelling of every enumeration value of a document. |
| `Names.ListOrders` | crates/agentype-agent-contract/src/records.rs:195-241 | The order in which the values of each enumeration are listed. |
| `Sorting.TextLexical` | crates/agentype-agent-contract/src/matching.rs:230-236 | One text comes before another exactly when, behind their longest common prefix, it ends or has the smaller character. |
| `RoundTrips.DecodedValid` | crates/agentype-agent-contract/src/decode.rs:341-752 | Whatever a decoder of any of the nine kinds accepts is a valid record. |
| `RoundTrips.RoundTrip` | crates/agentype-agent-contract/src/decode.rs:341-752 | A record of any of the nine kinds is read back from its document exactly when it is valid. |
| `RoundTrips.StoredBack` | crates/agentype-agent-contract/src/canonical.rs:424-643 | It is read back from the stored canonical form too, however the fields were handed to the sorter. |
| `RoundTrips.Stored` | crates/agentype-agent-contract/src/canonical.rs:424-643 | Every valid record has a written form, and is read back from its canonical form. |
| `RoundTrips.DocumentsDiffer` | crates/agentype-agent-contract/src/canonical.rs:432-643 | Two valid records, of the same or different kinds, share a document exactly when they have the same content; the disposition is not content. |
| `RoundTrips.CanonicalDocuments` | crates/agentype-agent-contract/src/canonical.rs:408-643 | The same for canonical documents, so distinct records never share one. |
| `Quoting.QuoteArg` | crates/agentype-adapter-local-process/src/jail.rs:2086-2111 | The backslash-counting loop computes the quoted form. |
| `Quoting.JoinArgs` | crates/agentype-adapter-local-process/src/jail.rs:2208-2213 | The loop computes the whole command line: the quoted program name, then a blank and the quoted form of each argument. |
| `Quoting.RoundTripExactly` | crates/agentype-adapter-local-process/src/jail.rs:2086-2111 | Parsing the argument part by the Windows rules gives back the list exactly when no argument contains NUL. |
| `Quoting.ProgramSplits` | crates/agentype-adapter-local-process/src/jail.rs:2208-2213 | The rule for argv[0] takes off exactly the program name if and only if no blank of the name before a NUL follows an odd number of its quotes and, when arguments follow, it has no NUL and an even number of quotes. |
| `Quoting.NameSurvives` | crates/agentype-adapter-local-process/src/jail.rs:2208-2213 | Every name without quotes and NUL meets that condition. |
| `Quoting.WholeLine` | crates/agentype-adapter-local-process/src/jail.rs:2208-2213 | Behind such a name, parsing the whole command line gives back the arguments exactly when none contains NUL. |

## Left out

- Guarantees.IndexesHold: speaks of the indexes left after all migrations.
- Guarantees.UnsafeClosedSuspended: speaks of non-cancelled tasks, because `cancel_task` with asserted quiescence leaves the execution row unsafe.
- MatchingProofs.OrderIrrelevant: asks for distinct agent ids; with equal ids and ranks the stable sort keeps input order.
- Claims.CanonicalUnordered: the error kind of a refused list may depend on its order, because the first bad shape decides; only success and output are order-independent.
- Verdicts.CanonicalVerdict: speaks of successful canonicalizations; a record left half rewritten by a refused one is not modelled.
- RoundTrips.RoundTrip: numbers are reals, so rounding of large integers read as floating point is not modelled.
- PoolEffects.MergeHandsOver: says where tasks and agents belong; which agents move at once and which drain first is not stated.
- SchedulerCore.Scheduler.UpsertPartition: bootstrap of several partitions at once is not modelled.
- The failures, checkpoints, workstreams and lifecycle tables, payload columns and stamps that guard no decision.
- `poll_executions`, `recover`, `tick`, `revive_eligible_agents` and the daemon threads, which only issue calls that are modelled.
- The order of queries without an ORDER BY: their rows are taken in order of id.
- JSON text, SHA-256 and digests: the model stops at document trees.
- Catalog definition, selectors, `frontier.rs`, `deadline.rs` and `intent_ingress.rs`: one-branch facts that would only add easy members.
- Processes, files, SQLite mechanics, migrations, configuration loading and the worker adapters.
