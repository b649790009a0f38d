# Verified model of the agent runtime

A Dafny model of the part of AionUi's backend that keeps agents running: the worker task
manager, the team runtime tokens, the agent registry, the status of a running agent, the
foreground leases, the idle scan, and the one-line report of a failing process. Check it with
`dafny verify dfyconfig.toml`.

## How it is organised

| files | what they hold |
|---|---|
| `task_protocol.dfy` | the task manager as a protocol: any number of calls, one atomic access to shared state per step |
| `task_protocol_invariants.dfy`, `task_protocol_ledger.dfy`, `task_protocol_drops.dfy`, `task_protocol_races.dfy` | what every step keeps |
| `task_protocol_theorems.dfy`, `task_protocol_progress.dfy`, `task_protocol_queue.dfy` | safety over whole runs, progress, and runs that show what is not promised |
| `managed_tasks.dfy`, `task_protocol_atomic.dfy` | what a call does when it is alone, and the proof that every uninterrupted run of the protocol then does just that |
| `task_manager.dfy` | the manager as an object, with its tokens, and the idle scan |
| `runtime_token.dfy`, `token_history.dfy`, `token_races.dfy` | the token store, what its history decides, and the store under interleaved issues |
| `agent_availability.dfy`, `registry.dfy`, `registry_theorems.dfy`, `registry_races.dfy`, `catalog_channel.dfy` | the registry, its invariants, its sweeps interleaved with handshakes, and the channel that feeds it |
| `agent_runtime.dfy`, `active_lease.dfy`, `lease_races.dfy`, `session_options.dfy`, `process_report.dfy` | the smaller components |
| `agent_types.dfy`, `capabilities.dfy`, `rust_strings.dfy`, `wrappers.dfy` | shared vocabulary |

The protocol steps where the code can be interrupted or meet another thread: the capability
check, `tasks.remove`, `slot.get`, `tasks.entry`, the first poll of `get_or_try_init`, the start
of the factory, its success or failure, the wake-up of a waiter, and the drop of a future. A
once-cell is a value that may be absent and tokio's one-permit semaphore with its FIFO queue.
`log`, `removedBy` and `checkedAt` record history; no step reads them.

## What is assumed

- SHA-256 has no collisions and a random draw never repeats. Both appear as hypotheses
  (`Collisionless`, `FreshDraws`, the `requires` of `Issue`, the guard of `Draw`).
- Every run of an agent factory yields an agent of its own.
- A JSON value stands for its canonical text, so writing it to a column and reading it back is a
  round trip, and the partial update of the handshake columns leaves unset fields alone
  (`crates/aionui-db/src/repository/sqlite_agent_metadata.rs:430-457`).
- What probing the machine yields at some moment is an arbitrary `World`; merging config options and
  deriving modes and models from them are arbitrary functions in `Catalog`.
- Apart from the task manager, the running agent, `TokenRaces`, `LeaseRaces` and `RegistryRaces`, an operation is one
  atomic act.
- An idle scan reads one clock value.

## Where the code and its comments part

The model follows the code.

- `emit_finish` and `emit_error_data` are documented as atomic
  (`crates/aionui-ai-agent/src/agent_runtime.rs:109`). The claim and the send are two steps;
  `AgentRuntimes.SendCanTrailReset` gives a run with two terminal events in one turn, and
  `AgentRuntimes.TurnSendsOneIffNobodyWaits` says exactly which turns send at most one.
- `resolved_command` is documented as `Some` iff `available`
  (`crates/aionui-api-types/src/agent_discovery.rs:191-194`). Only one direction holds;
  `RegistryTheorems.ManagedRowIsAvailableUnresolved` gives a row for which the other fails, and
  `RegistryTheorems.ProbedRowsResolve` says exactly for which rows it does.
- `decode_row` says that startup hydration uses the cached projection
  (`crates/aionui-ai-agent/src/registry.rs:522-524`). `hydrate` uses the live probe.
- A shared slot can hand a caller an agent without the capabilities it asked for
  (`TaskProtocolProgress.SharedSlotCanFallShort`);
  `TaskProtocolQueue.WaiterCanFallShort` says exactly which waiting callers that can happen to, and
  `TaskProtocolTheorems.StaleAgentWasRaced` what must have happened.
- Plain `kill` and `clear` leave a running build alone (`TaskProtocolProgress.PlainKillMissesRunningBuild`),
  and a call that already holds a removed slot can still build after `kill_and_wait` gave up
  (`TaskProtocolProgress.GivenUpSlotCanStillBuild`). `TaskProtocolProgress.RemovedSlotCanStillBuild`
  says exactly when a removed slot can still be built, whichever call removed it.
- Two overlapping issues can leave one conversation with two live tokens
  (`TokenRaces.OverlapLeavesTwoTokens`); `TokenRaces.KeepsOneToken` says exactly which step does it.
- A lease renewed between the two accesses of a lookup is lost (`LeaseRaces.RenewalCanBeLost`), so that
  the next idle scan may take its conversation; `LeaseRaces.LossCanBeForeseen` says exactly which
  renewals can be lost, and `LeaseRaces.RenewalLostExactly` which have been.
- A handshake that comes between the read and the write of a hydrate is forgotten by the cache
  (`RegistryRaces.HydrateForgetsHandshake`), and later config options are merged without it.
  `RegistryRaces.UpToDateExactly` and `RegistryRaces.HydrateWriteKeepsOptions` say exactly when.
- A handshake that arrives before the first hydrate can leave a row unavailable without a reason, and
  forgets stored config options (`RegistryTheorems.HandshakeBeforeHydrateUnexplains`,
  `RegistryTheorems.MergeBeforeHydrateForgets`). `RegistryTheorems.StepExplains` and
  `RegistryTheorems.StepIsTransparentIff` say exactly which handshakes do.

## Model

| member | source | states |
|---|---|---|
| TaskProtocolTheorems.SlotsAreUsedOnce | crates/aionui-ai-agent/src/task_manager.rs:177-280 | in every reachable state a slot entered the map once, left it once exactly if it is unmapped, and was built and settled at most once |
| TaskProtocolTheorems.NoAgentIsKilledTwice | crates/aionui-ai-agent/src/task_manager.rs:205-280 | no two kills ever logged name the same agent |
| TaskProtocolTheorems.AgentAccounting | crates/aionui-ai-agent/src/task_manager.rs:177-280 | every built agent is in exactly one of four situations: mapped, being removed by a call that still owes its kill, killed, or let go; and an agent let go was built in a slot that had left the map uninitialised |
| TaskProtocolDrops.KeepsDrops | crates/aionui-ai-agent/src/task_manager.rs:226-265 | every step keeps: where a kill_and_wait future waits on the slot it removed, or was dropped, no build had succeeded before the removal |
| TaskProtocolTheorems.SingleFlight | crates/aionui-ai-agent/src/task_manager.rs:181-202 | one factory run per slot at a time and only over an empty cell; all Ok results from one slot are the same agent |
| TaskProtocolTheorems.CellIsSetOnce | crates/aionui-ai-agent/src/task_manager.rs:81-85 | a set cell keeps its value over every run |
| TaskProtocolTheorems.RunGrows | crates/aionui-ai-agent/src/task_manager.rs:177-280 | over every run set cells, removers, returned outcomes and the log stay |
| TaskProtocolTheorems.KillAndWaitSettles | crates/aionui-ai-agent/src/task_manager.rs:226-265 | a finished kill_and_wait settled the slot it removed exactly once, by a kill or by giving up |
| TaskProtocolTheorems.GivingUpMeansNoBuildRuns | crates/aionui-ai-agent/src/task_manager.rs:247-262 | it gives up only while holding the one permit over an empty cell, with no factory running there |
| TaskProtocolTheorems.RunningBuildIsKilled | crates/aionui-ai-agent/src/task_manager.rs:226-265 | a build running while kill_and_wait still owes its slot, and that succeeds, is killed by that call before it finishes |
| TaskProtocolTheorems.RemovedSlotRunsDry | crates/aionui-ai-agent/src/task_manager.rs:166-280 | over every run a removed slot stays unmapped and its pending builders only become fewer; with none left its cell is fixed and no factory runs |
| TaskProtocolTheorems.StaleAgentWasRaced | crates/aionui-ai-agent/src/task_manager.rs:166-202 | a returned agent lacks the requested capabilities iff another call that asked for less built it after the caller's check |
| TaskProtocolProgress.RunsEnd | crates/aionui-ai-agent/src/task_manager.rs:161-280 | a run without new calls is bounded by the work its calls have left |
| TaskProtocolProgress.NoDeadlock | crates/aionui-ai-agent/src/task_manager.rs:161-280 | a call that has not returned can move, or waits for a permit whose holder can |
| TaskProtocolProgress.OnlyAwaitingCallsDrop | crates/aionui-ai-agent/src/task_manager.rs:181-262 | a future is dropped only while it queues for a permit, runs the factory, or, for kill_and_wait, has not been polled yet |
| TaskProtocolProgress.QuietRunsFinish | crates/aionui-ai-agent/src/task_manager.rs:161-280 | without new calls every run is finite, and where it ends all calls have returned |
| TaskProtocolProgress.GivingUpIsLastInLine | crates/aionui-ai-agent/src/task_manager.rs:247-262 | everyone ahead of kill_and_wait in the slot's queue has returned, without that slot's agent, when it gives up |
| TaskProtocolProgress.RemovedSlotCanStillBuild | crates/aionui-ai-agent/src/task_manager.rs:205-280 | an empty slot that any kill, kill_and_wait, clear or rebuild has removed and is done with can still be built on some run iff a call that took it earlier has not returned |
| TaskProtocolProgress.PlainKillMissesRunningBuild | crates/aionui-ai-agent/src/task_manager.rs:219-221 | a run in which an agent outlives a finished plain kill of its slot |
| TaskProtocolProgress.SharedSlotCanFallShort | crates/aionui-ai-agent/src/task_manager.rs:181-202 | a run in which a caller gets an agent with too few capabilities |
| TaskProtocolQueue.WaiterCanFallShort | crates/aionui-ai-agent/src/task_manager.rs:181-202 | a caller waiting for an empty slot can be handed an agent that falls short of its request iff a build call that asks for too little holds the permit or is ahead in the queue; then it happens on a run without new or dropped calls |
| TaskProtocolProgress.GivenUpSlotCanStillBuild | crates/aionui-ai-agent/src/task_manager.rs:247-262 | a run in which a removed slot is built after kill_and_wait gave up |
| TaskProtocolAtomic.GetOrBuildAlone | crates/aionui-ai-agent/src/task_manager.rs:161-203 | from any quiet state every uninterrupted run of the call ends in the map, kill and result the sequential description gives for some answers of agent and factory, and for every answers some run does |
| TaskProtocolAtomic.KillAlone | crates/aionui-ai-agent/src/task_manager.rs:205-224 | the same for kill, which fails exactly if a built agent refuses |
| TaskProtocolAtomic.RemovalAlone | crates/aionui-ai-agent/src/task_manager.rs:226-280 | every uninterrupted run of kill_and_wait, and of clear for any list of keys, removes the tasks, kills each built agent once and in order, and never fails, whatever the agents answer |
| ManagedTasks.ServedAgentSatisfies | crates/aionui-ai-agent/src/task_manager.rs:161-203 | sequentially every agent handed out is the mapped one and satisfies the request; a kill is sent exactly for a stale task; a failed build leaves an empty slot; other conversations stay |
| ManagedTasks.RebuildsRaiseRank | crates/aionui-ai-agent/src/task_manager.rs:166-175 | over any sequence of requests each rebuild strictly raises the stored version's rank |
| ManagedTasks.RebuildsAreBounded | crates/aionui-ai-agent/src/task_manager.rs:166-175 | with versions at most V a conversation is rebuilt at most V + 1 times |
| ManagedTasks.ClimbReachesBound | crates/aionui-ai-agent/src/task_manager.rs:166-175 | for every V some requests need exactly V + 1 rebuilds |
| ManagedTasks.KillsAreExact | crates/aionui-ai-agent/src/task_manager.rs:226-245 | removing a list of tasks sends one kill to each built task among them and no other, whatever repeats the list has |
| Capabilities.SatisfiesIsRankOrder | crates/aionui-ai-agent/src/types.rs:101-110 | satisfies is the order of version ranks |
| TaskManager.WorkerTaskManager.GetOrBuildTask | crates/aionui-ai-agent/src/task_manager.rs:161-203 | map, kills, result, factory environment, live tokens and options after the call, in each branch, tied to the sequential description |
| TaskManager.WorkerTaskManager.Kill | crates/aionui-ai-agent/src/task_manager.rs:205-224 | the slot leaves the map, its conversation's tokens are revoked, a built agent is sent a kill whose refusal is reported |
| TaskManager.WorkerTaskManager.KillAndWait | crates/aionui-ai-agent/src/task_manager.rs:226-265 | the same with nothing running beside it, and no refusal reported |
| TaskManager.WorkerTaskManager.RefreshRuntimeTokenForNewTask | crates/aionui-ai-agent/src/task_manager.rs:131-152 | without team context or token service nothing changes; else the token is issued and replaces the environment's |
| TaskManager.WorkerTaskManager.InvalidateRuntimeTokens | crates/aionui-ai-agent/src/task_manager.rs:125-129 | exactly the conversation's grants go |
| TaskManager.WorkerTaskManager.Clear | crates/aionui-ai-agent/src/task_manager.rs:267-280 | the map is empty, every built task was sent one kill, and the removed conversations' tokens are gone |
| TaskManager.WorkerTaskManager.CollectIdle | crates/aionui-ai-agent/src/task_manager.rs:286-330 | exactly the selected conversations, each once, and no later lease lookup answers differently |
| TaskManager.WorkerTaskManager.ScanAndCleanup | crates/aionui-ai-agent/src/idle_scanner.rs:103-163 | the scan removes and kills exactly what it collected or what the coordinator left of it |
| TaskManager.ScanIsExact | crates/aionui-ai-agent/src/idle_scanner.rs:103-163 | without a coordinator a task is removed and sent one kill iff it is built, its agent is ACP with status none or finished, has been idle for longer than the threshold and holds no unexpired lease; every other slot is as before |
| TaskManager.BusyTasksStay | crates/aionui-ai-agent/src/task_manager.rs:286-330 | a task that is pending, running, not ACP or still being built is never removed or killed by a scan |
| TaskManager.LaterScanCollectsMore | crates/aionui-ai-agent/src/task_manager.rs:286-330 | under the same leases a later scan, or one with a lower threshold, collects no less |
| TaskManager.RebuildHandsOverWorkingToken | crates/aionui-ai-agent/src/task_manager.rs:166-175 | after any token history the rebuilt task's environment has one token entry and that token validates for both team scopes |
| TaskManager.RebuildRevokesEarlierTokens | crates/aionui-ai-agent/src/task_manager.rs:205-207 | and every token issued for the conversation before is Unknown |
| RuntimeTokens.RuntimeTokenService.ExistingToken | crates/aionui-ai-agent/src/runtime_token.rs:108-131 | the scan, in any order, finds the one grant of the pair if it fits the generation and covers the scopes |
| RuntimeTokens.RuntimeTokenService.Issue | crates/aionui-ai-agent/src/runtime_token.rs:75-106 | the hashed store moves as a map from (user, conversation) to one grant does, and returns that map's grant |
| RuntimeTokens.RuntimeTokenService.Validate | crates/aionui-ai-agent/src/runtime_token.rs:133-163 | the answer, with the right error, that the map view gives for the trimmed token |
| RuntimeTokens.RuntimeTokenService.InvalidateConversation | crates/aionui-ai-agent/src/runtime_token.rs:165-168 | exactly the pair's grant goes |
| RuntimeTokens.RuntimeTokenService.InvalidateConversationId | crates/aionui-ai-agent/src/runtime_token.rs:170-173 | exactly the conversation's grants go |
| RuntimeTokens.RuntimeTokenService.InvalidateGeneration | crates/aionui-ai-agent/src/runtime_token.rs:175-180 | exactly the generation's grants of the conversation go |
| RuntimeTokens.HexIsInjective | crates/aionui-ai-agent/src/runtime_token.rs:183-187 | different random bytes are different tokens |
| RuntimeTokens.TrimRecoversToken | crates/aionui-ai-agent/src/runtime_token.rs:141-144 | a generated token survives surrounding white space |
| RustStrings.TrimIsInnerPart | crates/aionui-ai-agent/src/runtime_token.rs:141-144 | trimming cuts all white space off both ends and nothing else |
| RustStrings.WhitespaceIsUnicode | crates/aionui-ai-agent/src/runtime_token.rs:141-144 | white space is Unicode's |
| TokenHistory.TokenHistoryDecides | crates/aionui-ai-agent/src/runtime_token.rs:75-180 | over any history a token validates iff it was made by an issue for that user, conversation, generation and scope that no later operation ended; it is Unknown iff no live issue made it |
| TokenHistory.PresentedTokenAnswers | crates/aionui-ai-agent/src/runtime_token.rs:133-163 | a token a live issue made is answered with the first disagreement, user, conversation, scope, generation in this order, or with exactly the claims of that issue |
| TokenHistory.UnpresentedTokenAnswers | crates/aionui-ai-agent/src/runtime_token.rs:141-147 | Missing iff nothing but white space is presented; Unknown iff something is and no live issue made it |
| TokenRaces.RevocationIsPermanent | crates/aionui-ai-agent/src/runtime_token.rs:86-104 | with issue in three steps and any interleaving, a token that left the store never returns |
| TokenRaces.CoveredIssueReuses | crates/aionui-ai-agent/src/runtime_token.rs:86-88 | an issue split into steps, left alone and covered by a live grant, returns that grant's token whatever the scan order, and draws iff none covers it |
| TokenRaces.UncoveredIssueInserts | crates/aionui-ai-agent/src/runtime_token.rs:89-105 | left alone and not covered, it ends in the store and with the token the issue taken as one act gives |
| TokenRaces.KeepsOneToken | crates/aionui-ai-agent/src/runtime_token.rs:97-104 | a step keeps a pair to one token iff it does not clear the pair while another issue stands between clearing it and inserting |
| TokenRaces.OneTokenWithoutOverlap | crates/aionui-ai-agent/src/runtime_token.rs:86-104 | runs without such overlaps never give a pair two live tokens |
| TokenRaces.OverlapEndsInTwoTokens | crates/aionui-ai-agent/src/runtime_token.rs:97-104 | any two overlapping issues leave two live tokens once both have inserted |
| TokenRaces.OverlapLeavesTwoTokens | crates/aionui-ai-agent/src/runtime_token.rs:97-104 | a run from the empty store that ends that way |
| ActiveLeases.ActiveLeaseRegistry.Renew | crates/aionui-ai-agent/src/active_lease.rs:24-28 | the lease is set to the saturated expiry, the others stay |
| ActiveLeases.ActiveLeaseRegistry.RenewMany | crates/aionui-ai-agent/src/active_lease.rs:30-38 | every named lease gets one common expiry, and the ids are counted |
| ActiveLeases.ActiveLeaseRegistry.ActiveUntil | crates/aionui-ai-agent/src/active_lease.rs:40-48 | the answer, and the removal of an expired lease and no other |
| ActiveLeases.InsertedMaps | crates/aionui-ai-agent/src/active_lease.rs:30-38 | a renewal sets the named leases, whatever repeats they have, and no other |
| ActiveLeases.SaturateClamps | crates/aionui-ai-agent/src/active_lease.rs:25-31 | saturation keeps signed 64-bit values and stops at their ends |
| ActiveLeases.ExpiryShowsExactly | crates/aionui-ai-agent/src/active_lease.rs:24-52 | after any history and under any clock, a lookup answers otherwise than the last renewal promised iff an earlier lookup since then read a clock at or past the expiry and this one reads a clock before it |
| ActiveLeases.LazyExpiryIsInvisible | crates/aionui-ai-agent/src/active_lease.rs:24-52 | under a clock that never goes back it answers with the last renewal's expiry iff that lies ahead |
| ActiveLeases.ClockGoingBackShowsExpiry | crates/aionui-ai-agent/src/active_lease.rs:40-48 | without that clock an earlier lookup can be noticed |
| LeaseRaces.StoredUnlessRemoved | crates/aionui-ai-agent/src/active_lease.rs:24-48 | with the lookup's read and removal as two steps, the map holds the last renewal unless a removal came after it |
| LeaseRaces.ReadThenRemoveIsLookup | crates/aionui-ai-agent/src/active_lease.rs:40-48 | a read and its removal with nothing between are the lookup taken as one act |
| LeaseRaces.RenewalLostExactly | crates/aionui-ai-agent/src/active_lease.rs:40-48 | under a clock that never goes back a lookup answers otherwise than the last renewal promised iff a lookup that read before that renewal removed it and it has not expired |
| LeaseRaces.LossCanBeForeseen | crates/aionui-ai-agent/src/active_lease.rs:24-48 | a renewal can be lost on some continuation iff, when it is made, a lookup of that conversation is between its read, which found the lease expired, and its removal |
| LeaseRaces.RenewalCanBeLost | crates/aionui-ai-agent/src/active_lease.rs:40-48 | a run in which it happens |
| SessionOptions.BuildTaskOptions.ApplyConversationRuntimeContext | crates/aionui-ai-agent/src/types.rs:46-86 | the list and the capability version after the call |
| SessionOptions.BuildTaskOptions.ReplaceToken | crates/aionui-ai-agent/src/task_manager.rs:144-151 | the list after the token refresh |
| SessionOptions.LastContextWins | crates/aionui-ai-agent/src/types.rs:46-86 | applying two contexts is applying the second; with equal contexts, idempotence |
| SessionOptions.ForeignEntriesComeFirst | crates/aionui-ai-agent/src/types.rs:54-84 | the new list starts with exactly the entries under other keys, each from its place in the old list and in that order; managed entries follow |
| SessionOptions.ForeignValuesStay | crates/aionui-ai-agent/src/types.rs:54-63 | a key that is not managed keeps all its values in order |
| SessionOptions.ContextSetsVariables | crates/aionui-ai-agent/src/types.rs:64-92 | the five variables, by their names, hold the user, conversation, helper, base URL and token of the context |
| SessionOptions.ManagedKeysAreListedOnce | crates/aionui-ai-agent/src/types.rs:64-84 | a managed key is listed once with the context's value, or not at all |
| SessionOptions.RefreshIsReapplying | crates/aionui-ai-agent/src/task_manager.rs:144-151 | refreshing the token is applying the context with the new token, whatever token was there |
| SessionOptions.RefreshLeavesOneToken | crates/aionui-ai-agent/src/task_manager.rs:144-151 | afterwards the new token is the only one listed |
| SessionOptions.RefreshKeepsOtherEntries | crates/aionui-ai-agent/src/task_manager.rs:144-151 | every other entry stays, in order, and the token comes last |
| AgentRuntimes.AgentRuntime.TransitionTo | crates/aionui-ai-agent/src/agent_runtime.rs:88-95 | the new status; Finished stays |
| AgentRuntimes.AgentRuntime.EmitFinish | crates/aionui-ai-agent/src/agent_runtime.rs:111-126 | status and events after the call, nothing sent if finished already |
| AgentRuntimes.AgentRuntime.EmitError | crates/aionui-ai-agent/src/agent_runtime.rs:136-149 | the same for errors |
| AgentRuntimes.AgentRuntime.ResetForNewTurn | crates/aionui-ai-agent/src/agent_runtime.rs:100-103 | the status is overwritten even if finished |
| AgentRuntimes.OnlyResetsOpenATurn | crates/aionui-ai-agent/src/agent_runtime.rs:88-149 | no step but a reset raises what is sent, claimed or still open, or leaves Finished |
| AgentRuntimes.OneTerminalEventPerTurn | crates/aionui-ai-agent/src/agent_runtime.rs:88-149 | in every interleaving terminal events sent and claimed are at most one more than the resets |
| AgentRuntimes.FinishedAbsorbs | crates/aionui-ai-agent/src/agent_runtime.rs:85-95 | between resets Finished is never left, events sent and claimed keep their number, and no emitter is newly claimed |
| AgentRuntimes.TurnBound | crates/aionui-ai-agent/src/agent_runtime.rs:88-149 | the exact bound on events sent until the next reset: those claimed and unsent, and one more if the turn is open |
| AgentRuntimes.TurnSendsOneIffNobodyWaits | crates/aionui-ai-agent/src/agent_runtime.rs:97-126 | a turn opened by a reset sends at most one terminal event on every run iff no emitter has a claimed event unsent at the reset |
| AgentRuntimes.TransitionMovesOpenTurn | crates/aionui-ai-agent/src/agent_runtime.rs:88-95 | an open turn goes to the status given and stays as open as it was |
| AgentRuntimes.FinishingClosesTurn | crates/aionui-ai-agent/src/agent_runtime.rs:88-95 | a transition to Finished closes an open turn without an event: exactly one event less is to come, and nobody claims from then on |
| AgentRuntimes.ResetOpensTurn | crates/aionui-ai-agent/src/agent_runtime.rs:97-103 | a reset opens a turn from any status at the one given, with exactly the waiting events and one more to come |
| AgentRuntimes.NobodySendsTwice | crates/aionui-ai-agent/src/agent_runtime.rs:111-149 | no emitter's event goes out twice |
| AgentRuntimes.ClaimThenSendIsEmit | crates/aionui-ai-agent/src/agent_runtime.rs:111-149 | an uninterrupted emitter does what its method says |
| AgentRuntimes.SendCanTrailReset | crates/aionui-ai-agent/src/agent_runtime.rs:109-126 | a run in which two terminal events go out in one turn |
| AgentAvailability.ProbeAlwaysExplains | crates/aionui-ai-agent/src/registry.rs:660-706 | a live probe gives a reason iff the row is unavailable, resolves only available rows, and touches nothing else; so the violation branch of the log is dead |
| AgentAvailability.ProbeIsRight | crates/aionui-ai-agent/src/registry.rs:660-706 | over row and machine: a row that is looked up has a resolved command iff it is enabled, all it needs is found, the path is the candidate of its command or its supported tool, and its version probe, if any, finds no problem; else the reason names what is wrong first; a deferred row is available iff enabled with a command or a managed tool |
| AgentAvailability.ProbeNamesFirstMissing | crates/aionui-ai-agent/src/registry.rs:1250-1301 | a lookup resolves iff everything the row needs is found; each reason names something that really is missing, and all that is checked before it is found |
| AgentAvailability.CachedExplainsExcept | crates/aionui-ai-agent/src/registry.rs:718-811 | the cached judgement never gives an available row a reason, and leaves an unavailable row without one in exactly the stated cases |
| AgentAvailability.CachedAvailabilityIsRight | crates/aionui-ai-agent/src/registry.rs:718-776 | from the stored state a row is available iff it is enabled and runs inside or was checked with nothing missing |
| AgentAvailability.StoredCodeComesBack | crates/aionui-ai-agent/src/registry.rs:778-811 | the stored code of a missing piece comes back as the code of the reason, with details from the row |
| AgentAvailability.StatusIsRight | crates/aionui-ai-agent/src/registry.rs:937-954 | each management status, and visibility, told from the fields of the row |
| AgentAvailability.DecodedIsRight | crates/aionui-ai-agent/src/registry.rs:525-646 | what is cached of a stored row: the trimmed override before the stored command, none for the internal CLI, and every other field as stored |
| AgentAvailability.ResolvedUnlessDeferredOrInternal | crates/aionui-ai-agent/src/registry.rs:656-684 | exactly which probed rows are available without a resolved command |
| Registry.AgentRegistry.ApplyHandshakeInner | crates/aionui-ai-agent/src/registry.rs:111-173 | cache, reasons and storage after a handshake, as the specification step says |
| Registry.AgentRegistry.UpdateCachedUnavailableReason | crates/aionui-ai-agent/src/registry.rs:175-182 | the reason is set or cleared |
| Registry.AgentRegistry.HydrateAll | crates/aionui-ai-agent/src/registry.rs:198-226 | both cached maps are rebuilt from storage, in whatever order the probes finish |
| Registry.AgentRegistry.RefreshAvailability | crates/aionui-ai-agent/src/registry.rs:230-259 | every cached row is judged again, and only its two availability fields change |
| Registry.AgentRegistry.ReloadOne | crates/aionui-ai-agent/src/registry.rs:263-284 | one row is reread and judged, or dropped if it is gone or not decodable |
| RegistryTheorems.RunIsCoherent | crates/aionui-ai-agent/src/registry.rs:111-284 | after any run of handshakes, hydrates, refreshes, reloads and outside writes an available row has no reason, a resolved command means available, and every reason belongs to a cached row |
| RegistryTheorems.SweepJudgesRightly | crates/aionui-ai-agent/src/registry.rs:198-284 | hydrate and reload cache exactly the decodable stored rows, refresh the cached ones, and each has the availability, command and reason that row and machine call for |
| RegistryTheorems.HandshakeKeepsAvailability | crates/aionui-ai-agent/src/registry.rs:148-172 | a handshake leaves availability, resolved command and reason of a cached row alone |
| RegistryTheorems.StepExplains | crates/aionui-ai-agent/src/registry.rs:111-284 | a step leaves every unavailable row with a reason iff it is not a handshake of an uncached row in the stated cases |
| RegistryTheorems.RunIsExplained | crates/aionui-ai-agent/src/registry.rs:111-284 | throughout a run every unavailable row has a reason iff no handshake of the run is such |
| RegistryTheorems.HandshakeBeforeHydrateUnexplains | crates/aionui-ai-agent/src/registry.rs:718-743 | a handshake that does so |
| RegistryTheorems.ReadsShowStoredReasons | crates/aionui-ai-agent/src/registry.rs:462-493 | after any run a diagnostic snapshot pairs each row with just its stored reason, and a visible row has none |
| RegistryTheorems.MissingMeansUnavailable | crates/aionui-ai-agent/src/registry.rs:937-954 | in explained runs the management status is missing iff the row is unavailable |
| RegistryTheorems.ProbedRowsResolve | crates/aionui-ai-agent/src/registry.rs:198-259 | after any run that ends by probing all rows, a row is available without a resolved command iff it needs no lookup |
| RegistryTheorems.ManagedRowIsAvailableUnresolved | crates/aionui-ai-agent/src/registry.rs:660-672 | a stored row that is so on every machine |
| RegistryTheorems.CacheAgreesWithStorage | crates/aionui-ai-agent/src/registry.rs:111-284 | after any run a cached row not written behind the registry's back is the decoded stored row, handshake included, and once hydrated every decodable row is cached |
| RegistryTheorems.StepIsTransparentIff | crates/aionui-ai-agent/src/registry.rs:111-122 | whatever merging means, a handshake with config options leaves storage as merging against storage would iff the cached options are the stored ones |
| RegistryTheorems.InStepAfterRun | crates/aionui-ai-agent/src/registry.rs:111-284 | after any run, for a row not written behind the registry's back, they are iff the row is cached or has none stored |
| RegistryTheorems.CacheIsTransparent | crates/aionui-ai-agent/src/registry.rs:111-122 | a whole run of such handshakes and any other operations leaves storage as a registry without a cache would |
| RegistryTheorems.MergeBeforeHydrateForgets | crates/aionui-ai-agent/src/registry.rs:113-122 | before the first hydrate the two differ |
| RegistryTheorems.StoredFieldIsLatest | crates/aionui-ai-agent/src/registry.rs:124-146 | capabilities, auth methods and commands of a stored row are the latest Some written to it over any run |
| RegistryTheorems.HandshakeStoresOptions | crates/aionui-ai-agent/src/registry.rs:111-146 | the config options, modes and models a handshake leaves in storage, and that it changes no other row and no other field |
| RegistryTheorems.CachedFieldIsLatest | crates/aionui-ai-agent/src/registry.rs:124-173 | and so are those of the cached row |
| RegistryTheorems.HandshakeFollows | crates/aionui-ai-agent/src/registry.rs:113-146 | a handshake with config options makes modes and models follow them; one without keeps that iff the modes and models it carries are those the stored options imply |
| RegistryRaces.ReadThenWriteIsStep | crates/aionui-ai-agent/src/registry.rs:198-284 | hydrate, refresh and reload split into read and write are the operations taken as one act when nothing comes between |
| RegistryRaces.CacheShowsEarlierStorage | crates/aionui-ai-agent/src/registry.rs:111-284 | over every interleaving of split sweeps, handshakes and outside writes, a cached row is the decoded stored row as it was when the last results written for it were read, or when the last handshake reached it |
| RegistryRaces.UpToDateExactly | crates/aionui-ai-agent/src/registry.rs:111-284 | so a cached row agrees with storage iff what the decoder makes of storage has not changed since then |
| RegistryRaces.UntouchedStays | crates/aionui-ai-agent/src/registry.rs:111-173 | that changes only by handshakes and outside writes of the row itself |
| RegistryRaces.HydrateWriteKeepsOptions | crates/aionui-ai-agent/src/registry.rs:198-226 | after the write of a hydrate the cached config options are the stored ones iff the stored ones are those the hydrate has read |
| RegistryRaces.HydrateForgetsHandshake | crates/aionui-ai-agent/src/registry.rs:198-226 | a run in which a handshake's config options reach storage and are missing from the cache |
| RegistryRaces.RowsStaySound | crates/aionui-ai-agent/src/registry.rs:111-284 | over every interleaving an available row has no reason and a resolved command means available |
| RegistryRaces.RefreshWriteExplains | crates/aionui-ai-agent/src/registry.rs:230-259 | the write of a refresh leaves every unavailable row with a reason iff the rows it has not read are available, and no stray reason iff the rows it found unavailable are still cached |
| CatalogChannel.CatalogSync.SendPartial | crates/aionui-ai-agent/src/registry.rs:1170-1186 | the message is queued, or dropped if 256 wait |
| CatalogChannel.CatalogSync.Drain | crates/aionui-ai-agent/src/registry.rs:89-103 | the consumer applies all waiting messages in order |
| CatalogChannel.AcceptedAreProcessedOrWaiting | crates/aionui-ai-agent/src/registry.rs:89-103 | accepted messages are the processed and the waiting ones, and at most 256 wait |
| CatalogChannel.ChannelIsFifo | crates/aionui-ai-agent/src/registry.rs:89-103 | a prefix of the accepted messages has been processed and the registry is where it takes it; the rest waits |
| CatalogChannel.NothingLostBelowCapacity | crates/aionui-ai-agent/src/registry.rs:1170-1186 | every offered message is accepted iff none meets a full channel |
| CatalogChannel.CatalogueShowsLatestProcessed | crates/aionui-ai-agent/src/registry.rs:89-173 | over any events the stored capabilities, auth methods and commands are the latest among the processed messages |
| ProcessReports.StderrLine | crates/aionui-app/src/process_report.rs:32-43 | the loop prints the specified line |
| ProcessReports.LineReadsBack | crates/aionui-app/src/process_report.rs:32-51 | a reader recovers code, keys, sanitised values and message from the line, for any number of fields, iff the code has no space or colon and no key an equals sign |
| ProcessReports.LinesAreUnique | crates/aionui-app/src/process_report.rs:32-51 | two such reports print the same line iff they agree on those |
| ProcessReports.SanitizeSettles | crates/aionui-app/src/process_report.rs:46-51 | sanitising keeps the printable ASCII characters but the colon and puts an underscore for every other; so the value has no separator and is not changed again |
| ProcessReports.EqualsInKeyIsAmbiguous | crates/aionui-app/src/process_report.rs:35-39 | with an equals sign in a key two different reports print the same line |

## Left out

- What an agent does when it is killed, and how long that takes: the model records that a kill was requested.
- Tokens inside the interleaving model of the task manager: the token store has its own interleaving model, and the sequential manager carries both.
- ActiveLeases.ActiveLeaseRegistry.ActiveUntil: takes the read and the removal as one act; `LeaseRaces` has them apart.
- Interleavings inside one handshake (its read of the cached options, its database write, its cache write) and between the two map writes of one sweep: each is one act. Sweeps are split in `RegistryRaces`; elsewhere they are one act, too, although hydrate, refresh and reload await version probes between their read and their write.
- TaskManager.WorkerTaskManager.KillAndWait: describes the future driven to its end with nothing beside it; dropping it and builds running beside it are in the protocol.
- TaskManager.WorkerTaskManager.ScanAndCleanup: kills one after the other what the source hands to parallel tasks; the order matters only for the order of the kills. The coordinator may return any list, but is not a party to the state. Threshold arithmetic on the configured seconds (idle_scanner.rs:84-85) needs a bound the source does not check; thresholds are parameters here.
- TaskProtocol `clear`: the list of keys it works through is arbitrary rather than a snapshot of the map, which allows more runs.
- RuntimeTokens.RuntimeTokenService.Issue: asks that the drawn token is not live, which stands for the strength of the random source.
- Registry.AgentRegistry.HydrateAll: database errors, which end the operation before it changes anything; the same holds for the other registry operations.
- The bodies of `merge_config_option_values` and `enrich_handshake_with_config_option_catalog`, environment overrides, names, icons, sort order, team capability and the management rows copied from them.
- Parsing of the idle configuration, HTTP routes, command line, startup wiring, process spawning, `PATH` lookup and version probes: plumbing, or answers of the machine.
- Broadcast channel lag, logging, guidance texts and diagnostics: nothing in the modelled state depends on them.
