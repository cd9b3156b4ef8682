# Verified models of the control plane

These Dafny modules model the crash-tolerant protocols of the simulation's control plane and
mining controller, and prove what they promise. Every remote or durable call is answered by an
adversary: it may succeed, fail before or after taking effect, or end the process. What must
survive a crash is a field of its own (`saved`, `disk`, `stored`), written only by an explicit
save, and a restart starts from it. A `budget` bounds how many calls may go wrong; where even a
finite number of failures does not make a retry loop end, the loop has a `patience` and the
contracts say exactly when some patience is enough. Answers that decide an outcome (polls for an
abort, saves that land, reads that fail) are schedules in the state, consumed one by one, and a
process that died makes no further call.

| file | what it models |
|---|---|
| `Rewind.dfy`, `NodeView.dfy` | dropping three nodes to a common shorter chain, with abort, rollback and restart recovery; what a node knows and how it picks its tip |
| `Apply.dfy`, `Tuning.dfy` | the desired-state transaction over two workers and one durable record, its reconciler, and the parse of a merged configuration with the repair of dormant spam settings |
| `Jobs.dfy` | job lanes, idempotency keys, bounded history, failed cleanups, recovery, restarts, migration of older records |
| `Leases.dfy` | lease intents, cleanup order, lost answers, recovery; workers that answer from memory |
| `Checkpoints.dfy` | numbered scenario checkpoints, release by generation, the waiting executor |
| `EventLog.dfy` | numbered events, per-job files with one rotation, the ring, paging |
| `FaucetProtocol.dfy`, `FaucetLedger.dfy` | one transaction per faucet job; the ledger of transfers |
| `CoinSelection.dfy`, `FeeDominance.dfy` | greedy selection with a reserve; dominance in spite of rounding, and the zero-fee check |
| `ChainView.dfy` | the mining controller's window on the chain |
| `Bootstrap.dfy` | resumable staged mining |
| `Chain.dfy`, `Pruning.dfy`, `Sorting.dfy`, `Outcomes.dfy`, `ThreeNodes.dfy` | chains as values, bounded histories, sorting, replies and small types, nodes |

A chain is a value: a block carries its parent, so equal hashes mean equal histories. A node's
view is every block it received, in order of arrival, and the blocks it was told to treat as
invalid; its tip is the highest known block with no invalid ancestor, the first to arrive among
equals. Objects that change in place are classes whose methods state their new
fields; lists and maps they mutate are fields of type `seq`, `map` or `set`. Each method is tied
to a function or predicate on values, and the lemmas are about those.

## Where the code and its own words differ

- `crates/mining-controller/src/chain_view.rs:99-103` says an interrupted walk is picked up by
  the next round. It is not: the returned tip becomes the next `last`, so the skipped heights
  stay unrecorded. A rewritten history is reported exactly if the entry at min(last, tip) is
  recorded (`ChainViews.DetectionIsExact`, `ChainViews.ChainView.Sync`); a seeded view, one
  unanswered hash and a healthy next round that reports nothing are
  `ChainViews.ChainView.InterruptedWalkHidesReorg`.
- `crates/mining-controller/src/bootstrap.rs:34-35` says resuming cannot misassign funds. A run
  pays as planned exactly if node3 is not behind its own next stage when it starts
  (`Bootstrap.Run`, `Bootstrap.RunThroughRestarts`); a restart while node3 lags does misassign
  (`Bootstrap.LaggingMinerMisassigns`), and `crates/mining-controller/src/runner.rs:31-44` waits for
  no more than the nodes' RPC. Line 94 speaks of a fifth call; the loop makes up to
  `RPC_RETRY_ATTEMPTS`, which is 8.
- The error texts of `crates/control-plane/src/rewind_job.rs:409-436` promise the original chain,
  and `crates/control-plane/src/rewind_job.rs:280-304` retries until it is back. Reconsidering a
  block also revives every branch above it that an earlier rewind had left. The rollback ends
  exactly if the nodes then agree and every known block above the boundary off the original
  chain is outranked by one on it (`Rewind.LandsExactly`). After a rewind, fewer mined
  replacements, and a second rewind below the first, it never does, and a restart's recovery takes
  the revived branch for a completed rewind (`Rewind.RewindMineRewindStrands`).
- `crates/control-plane/src/jobs.rs:4431-4458` releases with one request id per lease. After a
  recovery attempt took the lease again, workers acknowledge further releases from memory
  without acting (`Leases.RecoveryReleasesOnce`). Without failing calls an attempt succeeds exactly
  if neither worker is blocked that way, and a blocked one stays blocked through every later attempt
  (`Leases.LeaseCoordinator.RecoverJobResources`, `Leases.LeaseCoordinator.RecoveryLoop`). Waiting for the lease to
  expire does not help a job that changed the chain: each attempt renews it first
  (`crates/control-plane/src/jobs.rs:4742-4751`, `crates/control-plane/src/jobs.rs:4772-4781`). Nothing is
  reported released in that state.
- `crates/control-plane/src/job_store.rs:70-71` writes a record and its newline separately. After a
  crash in between, the log still reads, but the next successful append makes it unreadable, and
  with it every later start (`EventLog.AppendAfterLostNewline`, `EventLog.EventFeed.EmitAndRestart`).
- A reservation that fails to save (`crates/control-plane/src/jobs.rs:1513-1515`) answers with an error
  but leaves its job unfinished in its lane with no executor; the lane stays taken until a
  restart, even if the job is aborted (`Jobs.JobManager.OrphanKeepsItsLane`).
- `crates/control-plane/src/jobs.rs:4884-4885` says a checkpoint is observable only once it is
  durable. The board in memory shows its generation whether or not the save lands; it is reported
  exactly if it does (`Checkpoints.ScenarioBoard.Arrive`). After a restart a lost number is given
  out again (`Checkpoints.ScenarioBoard.LostArrivalRepeats`): the shown numbers rise exactly if no
  restart that forgot one is followed by an arrival (`Checkpoints.ShownRiseExactly`). Reported ones
  always rise.
- In a recovery that runs in the process that could not save, the first priority may be raised
  before the prepared transaction is on disk: exactly if it was not there before and the next
  save does not land (`FaucetProtocol.FaucetJob.ArmPrepared`, `FaucetProtocol.FaucetJob.RecoverFaucetJob`).
  From the start of the job that takes the save of the built transaction and every later one to
  fail (`FaucetProtocol.FaucetJob.RunOnce`, with the input
  `FaucetProtocol.FaucetJob.RecoveryRaisesOffDisk`); a submission never is sent before. Recovery also delivers the
  transfer of a job that was aborted if that job's cleanup failed
  (`FaucetProtocol.FaucetJob.RecoveryDeliversAborted`).
- A worker whose generation ran ahead because a process died between its policy call and the
  save refuses the next apply of another policy, until the reconciler has restored the record's
  (`Apply.CrashedApplyBlocks`). Without failing calls, and with workers in the phase their policy
  asks for, an apply that issued commands is refused only for that reason
  (`Apply.Transaction.Land`, `Apply.Transaction.ApplyWithContext`).
- `FaucetStore::arm` and the re-arm marks replace a finished record without looking for another
  pending one. One pending transfer is kept exactly when the record is new, is the pending one,
  or nothing is pending (`FaucetLedger.ArmingKeepsOnePending`, `FaucetLedger.MarkingKeepsOnePending`,
  `FaucetLedger.FaucetStore.Arm`, `FaucetLedger.FaucetStore.Update`).

## Model

| member | source | states |
|---|---|---|
| `NodeViews.BestIsPreferred` | crates/control-plane/src/rewind_job.rs:182-202 | the tip a node reports is genesis or a valid known block that outranks every other valid one by height, then by arrival |
| `NodeViews.LearntBefore` | crates/control-plane/src/rewind_job.rs:182-202 | a block that arrives again does not move the tip |
| `NodeViews.StopsAtParentExactly` | crates/control-plane/src/rewind_job.rs:406-421 | invalidating a block of the active chain stops the node at its parent iff every other valid known block off that block is outranked by the parent |
| `NodeViews.RestoredTip` | crates/control-plane/src/rewind_job.rs:254-260 | reconsidering a block of the active chain brings up the highest known block above it, whichever branch that is on |
| `NodeViews.OriginalComesBack` | crates/control-plane/src/rewind_job.rs:261-273 | undoing a rewind ends on a chain with the original tip iff every known block above the boundary off that chain is outranked by one on it |
| `NodeViews.RollbackIsExact` | crates/control-plane/src/rewind_job.rs:409-412 | it ends at the very tip it started from iff no known block above the boundary outranks that tip |
| `NodeViews.NeverBelowParent` | crates/control-plane/src/rewind_job.rs:342-350 | an invalidation keeps the node on the target's chain iff every valid block off that chain is outranked by a valid one on it |
| `NodeViews.OneBranchIsEnough` | crates/control-plane/src/rewind_job.rs:240-278 | a node that knows one branch stops at the target and comes back to the original tip or a descendant |
| `NodeViews.AbandonedBranchReturns` | docs/RUNBOOK.md:200-208 | after a rewind and a shorter replacement, rolling back a second rewind below the fork brings up the abandoned branch, for any two branches |
| `Rewind.Cluster.InvalidateBlock` | crates/control-plane/src/rewind_job.rs:153 | the boundary hash is in the surviving record before any node is changed; a failed call may have taken effect |
| `Rewind.Cluster.Persist` | crates/control-plane/src/rewind_job.rs:145 | a saved record turns resolved only while all three tips agree |
| `Rewind.CoordinatedRewindExecutor.CommonTip` | crates/control-plane/src/rewind_job.rs:182-202 | success means all three nodes stand at the returned tip; with agreeing nodes only a failed call makes it fail |
| `Rewind.CoordinatedRewindExecutor.TipsEqual` | crates/control-plane/src/rewind_job.rs:204-210 | true iff all three nodes stand at the given height and hash |
| `Rewind.CoordinatedRewindExecutor.WaitForExactTip` | crates/control-plane/src/rewind_job.rs:212-222 | success means all nodes are at the tip; when they are, only a failed call makes it fail |
| `Rewind.CoordinatedRewindExecutor.CommonChainContains` | crates/control-plane/src/rewind_job.rs:224-238 | true iff the nodes agree on one chain that contains the block at that height |
| `Rewind.CoordinatedRewindExecutor.RollbackOnce` | crates/control-plane/src/rewind_job.rs:240-278 | on nodes that know any branches: success only for a verified common chain holding the original tip, recorded as resolved; without a failed call an attempt fails iff the reconsidered nodes do not end on such a chain; each node is untouched or had the boundary reconsidered |
| `Rewind.CoordinatedRewindExecutor.VerifyRestored` | crates/control-plane/src/rewind_job.rs:261-277 | the forty polls and the save that decide an attempt |
| `Rewind.CoordinatedRewindExecutor.RollbackUntilSafe` | crates/control-plane/src/rewind_job.rs:280-304 | if the nodes land, any patience above the number of failing calls ends, in a crash or with every node restored and a resolved record; if they do not, no patience restores them |
| `Rewind.CoordinatedRewindExecutor.InvalidateNode` | crates/control-plane/src/rewind_job.rs:400-438 | success means this node, and only this node, stands at the target and the record says so; without a failed call it fails iff the invalidation leads elsewhere |
| `Rewind.CoordinatedRewindExecutor.Prepare` | crates/control-plane/src/rewind_job.rs:334-358 | success means the request was permitted (1 to 100 blocks, target at or above 204, common tip) and the complete context is saved; no node is touched |
| `Rewind.CoordinatedRewindExecutor.Execute` | crates/control-plane/src/rewind_job.rs:329-503 | every outcome under any failures and aborts, on nodes that know any branches: a finished rewind ends exactly at the target, an aborted or failed one restored or untouched, and the saved record says which for each node; a job that ends by itself was aborted iff one of its five polls found an abort requested; permitted nodes that stop smoothly, with no abort asked for and no failed call, are rewound; it is still rolling back only through failing calls or if the nodes do not land; nothing is touched without a saved record of the rewind |
| `Rewind.CoordinatedRewindExecutor.InvalidateNodes` | crates/control-plane/src/rewind_job.rs:383-502 | node by node in the fixed order, aborted iff a poll before a node or at the end found it asked for; success records every node invalidated, a rollback every node restored |
| `Rewind.CoordinatedRewindExecutor.Conclude` | crates/control-plane/src/rewind_job.rs:446-502 | the decision after the last node: aborted iff asked, else converge and record, else roll everything back; without a failed call nodes at the target always conclude in success |
| `Rewind.CoordinatedRewindExecutor.RollBack` | crates/control-plane/src/rewind_job.rs:386-398 | the announced outcome is reported only after the rollback succeeded and the record shows every node restored |
| `Rewind.CoordinatedRewindExecutor.CompletedRewindIsSafe` | crates/control-plane/src/rewind_job.rs:306-325 | true iff the nodes agree on a chain that holds the target and not the original tip |
| `Rewind.CoordinatedRewindExecutor.Recover` | crates/control-plane/src/rewind_job.rs:505-526 | for arbitrary nodes: success means a completed rewind left alone, or every node restored on a chain with the original tip; without a failed call it fails iff neither is the case |
| `Rewind.CoordinatedRewindExecutor.RecoverUntilOk` | crates/control-plane/src/rewind_job.rs:505-526 | repeated recovery ends on one chain, with the original tip or with the target instead; it ends whatever fails if the restored nodes share the target, and without failures only then or if the rewind was complete |
| `Rewind.CoordinatedRewindExecutor.RunThroughCrashes` | crates/control-plane/src/rewind_job.rs:329-526 | execution plus recoveries across any crashes leaves the three nodes agreeing: untouched, holding the original tip, all invalidated, or all on a branch revived in its place; where rollbacks land it finishes; with no failing call, no abort and smooth nodes they end rewound |
| `Rewind.ContextOf` | crates/control-plane/src/rewind_job.rs:346-358 | the recorded context is complete: its boundary is the target's child on the original chain |
| `Rewind.LandsExactly` | crates/control-plane/src/rewind_job.rs:240-278 | exactly when a rollback can end, in terms of what the nodes know before the rewind starts |
| `Rewind.OneBranchLands` | crates/control-plane/src/rewind_job.rs:240-278 | nodes that know the same single branch always rewind and always land |
| `Rewind.RewindMineRewindStrands` | docs/RUNBOOK.md:200-208 | rewind p blocks, mine fewer than p, rewind once more below: permitted and smooth, but its rollback never ends and recovery takes the abandoned branch for a completed rewind |
| `Rewind.MidwayRestores` | crates/control-plane/src/rewind_job.rs:254-260 | wherever a rewind or an earlier rollback was interrupted, rolling back leads to the same nodes |
| `Rewind.MidwayTips` | crates/control-plane/src/rewind_job.rs:306-325 | interrupted nodes that recovery takes for rewound are all invalidated, or all on a branch revived in place of the original |
| `Rewind.AttemptsConverge` | crates/control-plane/src/rewind_job.rs:505-526 | what one recovery attempt leaves for the next |
| `Rewind.OriginalHoldsTarget` | crates/control-plane/src/rewind_job.rs:306-325 | nodes that share the original tip share the target |
| `Apply.MigratesOnce` | crates/control-plane/src/control_state.rs:165-174 | loading an older map drops the two legacy keys, keeps the fee, touches nothing else, and is done after one load |
| `Apply.GenerationNamesTheMap` | crates/control-plane/src/control_state.rs:209-226 | across any history of commits generations never fall, rise by at most one per commit, and are equal iff the map never changed in between; run states stay |
| `Apply.CommitExtends` | crates/control-plane/src/control_state.rs:209-226 | committing a printed tuning keeps the record loadable, unchanged by migration, and one step after the last commit |
| `Apply.MergedIsAsked` | crates/control-plane/src/apply.rs:113-115 | merging the trimmed request over the record and staging it gives exactly what is asked for: the request's value where it names a setting, the record's elsewhere, the default for a blank one |
| `Apply.Fleet.SetMiningPolicy` | crates/mining-controller/src/control.rs:213-253 | a policy call changes the worker only to the requested pair and only if the worker takes it: newer, a restore, or already in force |
| `Apply.Fleet.SetSpamPolicy` | crates/spammer/src/control.rs:265-307 | the same for the spam worker |
| `Apply.Fleet.Save` | crates/control-plane/src/control_state.rs:126-132 | an error means nothing was written; a crash leaves the old or the new record |
| `Apply.Transaction.VerifyRuntime` | crates/control-plane/src/apply.rs:316-409 | success means the last of four polls saw every touched worker healthy at the requested generation and policy, a disabled spam worker in the disabled phase; only the reads of that poll, and of node1 if it answered before, decide |
| `Apply.Transaction.RollbackRuntime` | crates/control-plane/src/apply.rs:411-494 | a reported restore means every touched worker reads back its earlier generation and policy; otherwise a further call failed |
| `Apply.Transaction.ReadBack` | crates/control-plane/src/apply.rs:456-494 | the restored workers read back their earlier pairs iff they hold them and the reads of the last of four polls answer |
| `Apply.Transaction.Abandon` | crates/control-plane/src/apply.rs:161-174 | the error code says rollback failure iff the runtime is not known to be restored |
| `Apply.Transaction.PushPolicies` | crates/control-plane/src/apply.rs:141-176 | success means every drifted worker took the policy and holds it; untouched workers are unchanged; without a failing call it fails only if some drifted worker does not take the policy |
| `Apply.Transaction.Propose` | crates/control-plane/src/apply.rs:70-129 | everything before the first command leaves workers and record alone; going on means the request passes every check, and without a failed call it stops only if it is locked, fails preflight or does not |
| `Apply.Transaction.Validate` | crates/control-plane/src/apply.rs:92-119 | validation passes only an acceptable request: in time, valid values, the fee at the nodes' minimum, and a source that has each requested setting's trimmed value and the record's value elsewhere, which parses to the tuning put in force; without a failed call it refuses only requests that are not, as stale iff the generation moved |
| `Apply.Transaction.Land` | crates/control-plane/src/apply.rs:141-236 | the record changes only after both workers hold the policy at one generation and the touched ones were seen healthy; an error leaves it unchanged; without failing calls and with workers in the phase their policy asks for, it reports iff every drifted worker takes the policy |
| `Apply.Transaction.ApplyWithContext` | crates/control-plane/src/apply.rs:65-237 | Ok: record and both workers hold exactly what was asked for, setting by setting, at one generation, and exactly the drifted workers were touched; it reports no change iff map and workers stay, and then the request asked for the tuning in force; Err: the record is unchanged and, unless rollback failed, so are both workers; a crash leaves the record wholly old or wholly new; without failing calls a refusal before the first command means the request is not acceptable, and one after it that some drifted worker does not take the policy |
| `Apply.CrashedApplyBlocks` | crates/mining-controller/src/control.rs:213-253 | a worker one generation ahead of the record refuses every other policy at that generation, takes a restore, and then takes it |
| `Apply.Reconciler.ReconcileMining` | crates/control-plane/src/reconcile.rs:71-91 | success means the mining worker holds the durable policy, generation and run state, from any worker state; flags say exactly what was pushed |
| `Apply.Reconciler.ReconcileSpam` | crates/control-plane/src/reconcile.rs:93-112 | the same for the spam worker |
| `Apply.Reconciler.ReconcileOnce` | crates/control-plane/src/reconcile.rs:55-119 | an Ok pass through its guards leaves both workers in step with the record; it reports no change iff they already were, and then issues no command; it fails only by a failed call |
| `Apply.Reconciler.ReconcileUntilSynced` | crates/control-plane/src/reconcile.rs:31-53 | the loop terminates with both workers in step for any finite number of failures and crashes |
| `Apply.ServeThroughCrashes` | crates/control-plane/src/reconcile.rs:55-119 | any series of applies failing or crashing anywhere, then reconciliation: each commit is what one request asked for, setting by setting, over the commit before it; every request is answered and what is reported changed was committed for it; both workers end at the last commit |
| `Tuning.Pass` | crates/control-plane/src/apply.rs:519-543 | one pass of the repair brings exactly the blamed settings that can move to their defaults, or, if none can, the automatic fan-out |
| `Tuning.ResetAllAway` | crates/control-plane/src/apply.rs:530-536 | resetting brings exactly the given settings to their defaults, and changes nothing iff none of them can move |
| `Tuning.Repair` | crates/control-plane/src/apply.rs:514-553 | the repair terminates at a source that parses or at one where nothing blamed can still move |
| `Tuning.RepairIsFramed` | crates/control-plane/src/apply.rs:519-543 | a setting moves only to its default, only if it is a spam setting other than the toggle, and only if some parse blamed it or it is the automatic fan-out |
| `Tuning.RepairKeepsToggle` | crates/control-plane/src/apply.rs:496-498 | the repair leaves ENABLE_SPAM as it was |
| `Tuning.StuckExactly` | crates/control-plane/src/apply.rs:537-550 | the repair gives up iff the failure blames nothing that can still move and the fan-out is already automatic |
| `Tuning.ParseMergedKeepsMining` | crates/control-plane/src/apply.rs:499-511 | the mining policy is exactly the one parsed from the input, and spam is enabled iff the input says so |
| `Tuning.RefusedExactly` | crates/control-plane/src/apply.rs:499-570 | exactly when a merged configuration is refused; spam can always be switched off next to valid mining settings if every failure blames something movable |
| `Tuning.ResetBlamed` | crates/control-plane/src/apply.rs:519-543 | the loop over blamed keys resets exactly the ones away from their default and reports them |
| `Tuning.ParseMergedTuning` | crates/control-plane/src/apply.rs:499-570 | the method computes the specified parse and reports exactly the settings that moved |
| `Jobs.ActiveTogether` | crates/control-plane/src/jobs.rs:6904-6919 | two active jobs are degradations of different nodes, or a degradation next to the mining job; so at most one is exclusive |
| `Jobs.SetStateSound` | crates/control-plane/src/jobs.rs:3977-3991 | changing a job's state keeps the lanes sound if the new state is terminal or the job is active |
| `Jobs.ClearSound` | crates/control-plane/src/jobs.rs:6921-6928 | clearing the lanes of a terminal job keeps them sound and frees exactly its lanes |
| `Jobs.LanesAreFour` | crates/control-plane/src/jobs.rs:6879-6893 | at most four jobs are active |
| `Jobs.TrimReachesBound` | crates/control-plane/src/jobs.rs:4096-4114 | trimming never runs out of removable records and removes exactly the excess over 100 |
| `Jobs.TrimKeepsActiveAndNewest` | crates/control-plane/src/jobs.rs:4096-4114 | trimming cuts the history once: before the cut only active jobs stay, in order, after it everything does |
| `Jobs.TrimSound` | crates/control-plane/src/jobs.rs:4096-4114 | trimming keeps the lanes sound and reaches the bound |
| `Jobs.AdmitSound` | crates/control-plane/src/jobs.rs:1471-1511 | a compatible job with a new id and an unused key keeps the lanes sound, is active, and displaces nothing |
| `Jobs.CompatibleExactly` | crates/control-plane/src/jobs.rs:6904-6919 | a job is compatible iff the lanes can take it without breaking their rule or losing an active job |
| `Jobs.OwnerIsUnique` | crates/control-plane/src/jobs.rs:1419-1443 | a stored job is what its key finds, wherever it stands in the history |
| `Jobs.RetryFindsTheJob` | crates/control-plane/src/jobs.rs:1419-1443 | a retry with the stored kind and fingerprint answers with that job whatever the lanes and deliveries are by then, and any other request under the key is refused |
| `Jobs.CreatesOnlyUnusedKeys` | crates/control-plane/src/jobs.rs:1419-1511 | a job is created only under a key no stored job holds |
| `Jobs.DecidesExactly` | crates/control-plane/src/jobs.rs:1419-1475 | when each answer is given, on kinds, keys, lanes, recovery and pending transfers; while a transfer is pending only mining and the two spam jobs start |
| `Jobs.ReservedIsFound` | crates/control-plane/src/jobs.rs:1476-1515 | a reserved job is on record as requested and every retry finds it |
| `Jobs.ReservedSound` | crates/control-plane/src/jobs.rs:1444-1515 | admission followed by trimming keeps the invariant, the new job active and every lane taken |
| `Jobs.MigrationIsSound` | crates/control-plane/src/jobs.rs:311-341 | migrating a schema 1 to 3 record keeps jobs and active ids and ends sound; it fails exactly on a missing active job or a degradation without a known node |
| `Jobs.InterruptAllSound` | crates/control-plane/src/jobs.rs:459-474 | interrupting the active jobs marks exactly the unfinished ones interrupted and changes no lane |
| `Jobs.JobManager.FindByKey` | crates/control-plane/src/jobs.rs:1419-1424 | the search answers with the key's owner, or none |
| `Jobs.JobManager.TrimHistory` | crates/control-plane/src/jobs.rs:4096-4114 | the loop computes the specified trimming, completely iff no removal of event files it needs fails; a failed one stops it after that record, with the lanes sound |
| `Jobs.JobManager.Answer` | crates/control-plane/src/jobs.rs:1398-1475 | the checks in their order compute the specified decision; beside a pending transfer only mining and the two spam jobs are created; a sound request with an unused key, free lanes and no recovery is refused for the delivery iff a transfer is pending and it is none of those three |
| `Jobs.JobManager.Reserve` | crates/control-plane/src/jobs.rs:1391-1536 | the answer is the specified decision, and for a pending transfer the exact one on kinds; a reused or refused request changes nothing; a new job is on record as requested, is active, and is found by every retry; it is reported created iff trimming and the save succeed, and else is orphaned with nothing saved |
| `Jobs.JobManager.OrphanKeepsItsLane` | crates/control-plane/src/jobs.rs:1503-1515 | a job whose reservation failed after its admission keeps its lane, unfinished, over any run of the process, even if aborted |
| `Jobs.JobManager.SetRunning` | crates/control-plane/src/jobs.rs:3977-3991 | progress never overrides a requested abort and moves no lane |
| `Jobs.JobManager.Abort` | crates/control-plane/src/jobs.rs:1623-1655 | an unknown job is reported, a terminal one answers with its state and nothing changes, any other becomes abort-requested, saved or not |
| `Jobs.JobManager.FinishJob` | crates/control-plane/src/jobs.rs:3937-3975 | the job gets its final state and no other record changes; its lane is cleared iff the cleanup succeeded, otherwise it stays taken and recovery starts |
| `Jobs.FinishSound` | crates/control-plane/src/jobs.rs:3937-3975 | finishing gives the job exactly its final state, frees its lanes iff its cleanup succeeded, and neither ends nor revives another |
| `Jobs.JobManager.RecoveryComplete` | crates/control-plane/src/jobs.rs:4368-4392 | a completed recovery frees exactly the job's lanes and ends; that the job had ended before its recovery is part of the invariant |
| `Jobs.JobManager.Restart` | crates/control-plane/src/jobs.rs:459-518 | a restart from the last save marks exactly the unfinished jobs interrupted, keeps every lane, and recovers exactly the active jobs |
| `Jobs.JobManager.OpenLegacy` | crates/control-plane/src/jobs.rs:223-309 | an older record opens iff it can be migrated, with the migrated lanes |
| `Jobs.JobManager.AnyRun` | crates/control-plane/src/jobs.rs:432-518 | the invariant, including that a recovering job has ended and has no executor, holds over any run of reservations, progress, aborts, finishes, panics, recoveries, failed saves and restarts |
| `Leases.ReleaseRemovesUnlessReplayed` | crates/mining-controller/src/control.rs:191-211 | a positively answered release removes the lease iff it was not answered from memory, and touches no other |
| `Leases.RecoveryReleasesOnce` | crates/control-plane/src/jobs.rs:4431-4458 | a lease taken again after its recovery release is acknowledged but kept by every further recovery release |
| `Leases.StillBlocked` | crates/control-plane/src/jobs.rs:4722-4784 | other jobs' requests and leases neither block a worker nor unblock it |
| `Leases.ReleaseServed` | crates/network-agent/src/control.rs:168-206 | serving a release at a worker or agent gives the job nothing and, for a new request id, ends the lease |
| `Leases.AcquireServed` | crates/mining-controller/src/control.rs:112-163 | serving an acquisition keeps every held lease on the record |
| `Leases.LeaseCoordinator.AcquireLease` | crates/control-plane/src/jobs.rs:3283-3311 | the intent is saved before the call, so whatever is answered or crashes, every held lease is on the saved record |
| `Leases.LeaseCoordinator.CleanNetwork` | crates/control-plane/src/jobs.rs:3553-3594 | a clean result means no agent is left held; only agents are asked, only for listed leases; without failing calls it is clean if no other impairment is in the way, and never beside a foreign one |
| `Leases.LeaseCoordinator.HealOne` | crates/control-plane/src/jobs.rs:3560-3588 | an impairment is released iff it is the active one; without failing calls it succeeds iff no other lease is active |
| `Leases.LeaseCoordinator.CleanWorker` | crates/control-plane/src/jobs.rs:3624-3648 | a clean result means the worker holds nothing of the job, although answers may come from memory; every listed lease is tried with the cleanup's flag whatever fails before, and without failing calls it is clean |
| `Leases.LeaseCoordinator.CleanupLeases` | crates/control-plane/src/jobs.rs:3528-3655 | a clean result means nothing is held anywhere and no call failed; release attempts went network, then spam, then mining, only for own listed leases; unless it crashes every own worker lease was tried, whatever failed before; foreign leases, renewer errors and nodes that do not converge are never clean; with no failing call and nothing foreign in the way it is |
| `Leases.LeaseCoordinator.Finish` | crates/control-plane/src/jobs.rs:3937-3975 | the lane is cleared iff the cleanup was clean, and it is if no call fails and nothing foreign is in the way; every own worker lease was tried unless it crashed |
| `Leases.LeaseCoordinator.FinishFailedBeforeMutation` | crates/control-plane/src/jobs.rs:3874-3917 | a lease granted although the answer was lost is cleaned up too, and the lane is cleared iff nothing is left, which it is if no call fails and nothing foreign is in the way |
| `Leases.LeaseCoordinator.RecoverNetworkResources` | crates/control-plane/src/jobs.rs:4677-4720 | success means no agent holds anything of the job |
| `Leases.LeaseCoordinator.RecoverWorkerLeases` | crates/control-plane/src/jobs.rs:4431-4458 | success means neither worker holds anything of the job, even when releases were answered from memory; without failing calls it succeeds iff no held lease was released by recovery before |
| `Leases.LeaseCoordinator.LookAgain` | crates/control-plane/src/jobs.rs:4452-4456 | the second look succeeds only if nothing is held, and without failing calls exactly then |
| `Leases.LeaseCoordinator.EnsureRecoveryLeases` | crates/control-plane/src/jobs.rs:4722-4784 | leases taken for the repair are on the saved record; a held one is renewed and stays; success means no call failed, and without failing calls both workers are held; afterwards a lease is stuck iff the worker was blocked |
| `Leases.LeaseCoordinator.RecoverJobResources` | crates/control-plane/src/jobs.rs:4460-4512 | a successful attempt means nothing is held anywhere; without failing calls it succeeds iff neither worker is blocked, and a failed one leaves one blocked |
| `Leases.LeaseCoordinator.RecoveryLoop` | crates/control-plane/src/jobs.rs:4368-4430 | across failed attempts and restarts the lane is cleared only by a successful attempt; without failing calls the first attempt ends the loop iff neither worker is blocked, and otherwise none ever does |
| `Leases.LeaseCoordinator.RunJob` | crates/control-plane/src/jobs.rs:2340-2440 | a whole job with crashes, panics and lost answers: whenever its lane is free nothing is held in its name; without failing calls its lane does become free, at the latest by the first recovery attempt, unless another owner uses its lease ids |
| `Checkpoints.EndsOnce` | crates/control-plane/src/jobs.rs:1728-1749 | ending a waiting occurrence is its first end and touches no other occurrence |
| `Checkpoints.ArrivalNumbers` | crates/control-plane/src/jobs.rs:4888-4901 | numbering an arrival keeps zero for pending only, and one checkpoint per generation |
| `Checkpoints.ReportsRise` | crates/control-plane/src/jobs.rs:4889-4890 | a reported generation is above every earlier one unless the counter is saturated |
| `Checkpoints.ShownRiseExactly` | crates/control-plane/src/jobs.rs:4884-4928 | over any arrivals, saves and restarts the numbers the board shows rise until saturation iff no restart that forgot a shown number is followed by an arrival |
| `Checkpoints.ScenarioBoard.Release` | crates/control-plane/src/jobs.rs:1686-1778 | the board changes iff the named checkpoint of a running job waits at exactly that generation, and the answer is acceptance iff the save lands; unreached, stale and timed-out checkpoints are refused as such; repeating an accepted release is accepted; an accepted one is the occurrence's only end |
| `Checkpoints.ScenarioBoard.Arrive` | crates/control-plane/src/jobs.rs:4886-4928 | a generation is shown in any case and reported iff its save lands, and then the board and the counter are on disk and it exceeds every reported one, across restarts; otherwise nothing on disk changes |
| `Checkpoints.ScenarioBoard.Await` | crates/control-plane/src/jobs.rs:4964-5036 | the waiter reports a release only if one happened, an abort iff a look found one, and a timeout only after every look, when it ended the occurrence itself |
| `Checkpoints.ScenarioBoard.Reach` | crates/control-plane/src/jobs.rs:4878-5037 | a whole occurrence: it fails unless its arrival is saved, passes iff it does not pause, and otherwise waits as long as it may; numbered, reported, and ended at most once |
| `Checkpoints.ScenarioBoard.Restart` | crates/control-plane/src/jobs.rs:432-478 | a restart resumes exactly from the saved board and counter; no reported generation is forgotten and what ended stays ended |
| `Checkpoints.ScenarioBoard.LostArrivalRepeats` | crates/control-plane/src/jobs.rs:4884-4928 | an unsaved arrival, a restart and the next job's arrival show the same generation twice, the second time reported if it is saved |
| `Checkpoints.ScenarioBoard.AnyRun` | crates/control-plane/src/jobs.rs:1686-1778 | over any run reported generations only grow, and shown ones rise iff no restart that forgot one is followed by an arrival |
| `EventLog.ReadingKeepsOrder` | crates/control-plane/src/job_store.rs:103-105 | sorting and deduplicating what a log holds changes nothing |
| `EventLog.RotationIsFaithful` | crates/control-plane/src/job_store.rs:57-66 | at either point of a rotation a crash loses at most the rotated file and keeps a full file |
| `EventLog.ReadableIsNotEmpty` | crates/control-plane/src/job_store.rs:81-106 | a log that parses and ever took an event still has one |
| `EventLog.AppendEvent` | crates/control-plane/src/job_store.rs:55-79 | it succeeds iff none of the operations it needs fails, and then a full file was rotated and the record and its newline follow; whatever fails, what was appended stays in order and the record is appended wholly or not at all; success keeps a readable log readable if its last line was finished, and makes it unreadable otherwise unless the file was full |
| `EventLog.Rotate` | crates/control-plane/src/job_store.rs:55-66 | a full file is rotated iff both operations succeed; an error leaves the rotated file alone, or removed if the second failed |
| `EventLog.AppendAfterLostNewline` | crates/control-plane/src/job_store.rs:69-71 | a crash between a record and its newline leaves a log that reads with that event, and the next complete append makes it unreadable |
| `EventLog.ReadEvents` | crates/control-plane/src/job_store.rs:81-106 | reading succeeds iff no line holds half a record or two, and returns what was appended less what rotation dropped, in order |
| `EventLog.PageIsExact` | crates/control-plane/src/jobs.rs:1611-1620 | a page holds exactly the readable events between the cursor and the new cursor, in order, once each, as many as asked for within 1 and 500 or else all that are newer; it is empty iff nothing newer is readable |
| `EventLog.NextPage` | crates/control-plane/src/jobs.rs:1611-1620 | adding a page to what a reader saw repeats nothing and misses nothing readable |
| `EventLog.PagesAddUp` | crates/control-plane/src/jobs.rs:1611-1620 | after any pages a reader has seen exactly the oldest newer events, as many as it asked for in all |
| `EventLog.MovesOn` | crates/control-plane/src/jobs.rs:4038-4043 | dropping old events and appending newer ones keeps a reader's account complete |
| `EventLog.LastIsStored` | crates/control-plane/src/jobs.rs:446-449 | in a readable log the stored maximum bounds everything ever appended |
| `EventLog.ReadAll` | crates/control-plane/src/jobs.rs:442-457 | all stored events, sorted with strictly rising numbers; fails iff some log does not parse |
| `EventLog.EventFeed.Emit` | crates/control-plane/src/jobs.rs:4014-4045 | a number is above every stored one and at or above the saved counter, whatever failed before; only the job's own log grows; after success its last line is finished, and it reads on iff it did and its last line was finished before; the ring gains the event and loses its oldest iff it held 2048; if no operation fails an event of a known job is emitted |
| `EventLog.EventFeed.Restart` | crates/control-plane/src/jobs.rs:442-457 | a restart succeeds iff every log parses, loses nothing stored, its counter is the least one past every stored number and at or above the saved one, and the ring holds the last 2048 stored events |
| `EventLog.EventFeed.EmitAndRestart` | crates/control-plane/src/jobs.rs:442-457 | from readable logs, an emitted event is stored, and the process starts again exactly if the log's last line was finished before |
| `EventLog.EventFeed.Events` | crates/control-plane/src/jobs.rs:1583-1621 | an answer is the specified page of the job's log or of the ring; unknown jobs and unreadable logs are refused |
| `EventLog.EventFeed.FollowJob` | crates/control-plane/src/jobs.rs:1583-1621 | paging one job while anyone appends, jobs come and are trimmed, and the process restarts repeats nothing and skips only what is gone |
| `EventLog.EventFeed.FollowAll` | crates/control-plane/src/jobs.rs:1600-1608 | the same for the ring while the process stays up |
| `EventLog.EventFeed.FollowAllThroughRestarts` | crates/control-plane/src/jobs.rs:1600-1608 | across restarts, trims and failed saves paging the ring repeats nothing and keeps the order |
| `EventLog.RestartKeepsAccount` | crates/control-plane/src/jobs.rs:442-457 | a restart keeps a ring reader's account complete iff every event up to its cursor that it brings into the ring had been shown |
| `FaucetProtocol.FaucetJob.Build` | crates/control-plane/src/jobs.rs:1984-2048 | inputs are chosen, set aside and saved before the transaction is built; an abort found before that builds nothing |
| `FaucetProtocol.FaucetJob.ArmPrepared` | crates/control-plane/src/jobs.rs:2092-2251 | raise twice, test twice, submit, check twice: no miner is offered the transaction before both priorities were raised and both tests passed; every submission and every raise but the first finds it on disk, and the first raise does iff it was on disk before or the next save of the record lands; success means both miners took it and the record says so |
| `FaucetProtocol.FaucetJob.RaiseBoth` | crates/control-plane/src/jobs.rs:2092-2131 | each raise is recorded before the next call; every raise but the first finds the transaction on disk, and the first does iff it was there or the save that notes the phase lands |
| `FaucetProtocol.FaucetJob.Execute` | crates/control-plane/src/jobs.rs:1977-2090 | the only place that builds a transaction; every priority it raises is for a transaction already on disk; it ends with one that is not only if its third save fails after two that landed and no abort was asked for, and without failing calls exactly then; success means both miners took it, its inputs are set aside, no abort was asked for and the ledger on disk holds it as pending; without failing calls and aborts it succeeds |
| `FaucetProtocol.FaucetJob.Conclude` | crates/control-plane/src/jobs.rs:1866-1975 | after a failed or aborted job with a transaction it adds exactly one lowered priority for Node2 and then one for Node3, and gives its inputs back; after a successful one it calls no miner and drops the raw copy from the record; an aborted transfer is not left pending; its saves are best effort, and after a failure the record on disk holds the transaction iff it did or one of them lands |
| `FaucetProtocol.FaucetJob.RecoverFaucetJob` | crates/control-plane/src/jobs.rs:4514-4631 | recovery never builds a replacement and sends nothing without a recorded transaction; success settles a confirmed one, lowers both priorities of a conflicting one, or has both miners take the recorded one again; its first raise finds it on disk iff it was there or the next save lands; without failing calls it succeeds |
| `FaucetProtocol.FaucetJob.RecoverPendingTransfer` | crates/control-plane/src/jobs.rs:4230-4309 | the delivery guard sends only the ledger's transaction, which is on disk, and to each miner only after raising its priority there; with conflicting inputs it gives the transfer up and calls no miner; success means both took it, and without failing calls it succeeds otherwise |
| `FaucetProtocol.FaucetJob.DeliverPending` | crates/control-plane/src/jobs.rs:4269-4291 | raise, test and submit at one miner after the other, then check both; without failing calls it succeeds |
| `FaucetProtocol.FaucetJob.RunJob` | crates/control-plane/src/jobs.rs:1780-2194 | across any crashes, failed saves, recoveries and guard runs every submission and priority is about one transaction, built at most once and on disk at every submission, and at every raise unless the save of the built transaction fails after the two before it landed |
| `FaucetProtocol.FaucetJob.RunOnce` | crates/control-plane/src/jobs.rs:1977-2090 | for an execution, its end and a first recovery: a priority is raised off disk only if the save of the built transaction and every save up to the recovery's first fail, and without failing calls exactly then |
| `FaucetProtocol.FaucetJob.RecoveryRaisesOffDisk` | crates/control-plane/src/jobs.rs:4514-4631 | a concrete run of failing saves that raises a priority for a transaction nothing on disk knows of |
| `FaucetProtocol.FaucetJob.RecoveryDeliversAborted` | crates/control-plane/src/jobs.rs:1918-1974 | recovery of an aborted job whose record still holds its transaction submits it to both miners |
| `FaucetLedger.TrimmedKeepsNewest` | crates/control-plane/src/faucet_store.rs:239-250 | pruning keeps every pending record and the newest hundred terminal ones, in order |
| `FaucetLedger.TrimmedIsSound` | crates/control-plane/src/faucet_store.rs:239-250 | pruning keeps distinct txids and cleared terminal records, and leaves at most one pending record iff there was |
| `FaucetLedger.OnePending` | crates/control-plane/src/faucet_store.rs:78-86 | in a sound ledger the pending record is unique |
| `FaucetLedger.ArmingKeepsOnePending` | crates/control-plane/src/faucet_store.rs:136-154 | exactly when arming keeps at most one pending transfer |
| `FaucetLedger.MarkingKeepsOnePending` | crates/control-plane/src/faucet_store.rs:156-229 | exactly when a mark keeps at most one pending transfer |
| `FaucetLedger.FaucetStore.Pending` | crates/control-plane/src/faucet_store.rs:94-102 | a pending transfer is found iff there is one |
| `FaucetLedger.FaucetStore.Trim` | crates/control-plane/src/faucet_store.rs:239-250 | the loop computes the specified pruning |
| `FaucetLedger.FaucetStore.Arm` | crates/control-plane/src/faucet_store.rs:136-154 | a pending record is taken iff it is known or nothing is pending, a new one last, and else nothing changes; the ledger stays tidy, and a sound one sound iff no finished record is revived beside a pending one; it succeeds iff taken and saved |
| `FaucetLedger.FaucetStore.Update` | crates/control-plane/src/faucet_store.rs:156-229 | a known record gets the delivery its mark names, keeping its recovery material iff it stays pending; no other record changes; a sound ledger stays sound iff no finished record is revived beside a pending one; unknown records and failure marks with another state are refused |
| `FaucetLedger.FaucetStore.AnyRun` | crates/control-plane/src/faucet_store.rs:136-250 | over any run of arming, marks, failed saves and restarts that revives no finished record beside a pending one, at most one transfer is pending, in the process and on disk |
| `FaucetLedger.FaucetStore.AnyUse` | crates/control-plane/src/faucet_store.rs:136-250 | over any sequence of uses the ledger stays tidy and is what they specify, and a sound one stays sound at a use iff that revives no finished record beside a pending one |
| `CoinSelection.InOrderSorts` | crates/control-plane/src/faucet_job.rs:510-519 | the order sorts by value, confirmations, txid and output |
| `CoinSelection.OrderedByKeys` | crates/control-plane/src/faucet_job.rs:510-519 | what comes first is worth more, else confirmed more often, else has the smaller txid, else the smaller output index |
| `CoinSelection.SortedIsUnique` | crates/control-plane/src/faucet_job.rs:510-519 | equal bags of inputs have one sorted order |
| `CoinSelection.CheckedTotalIsTotal` | crates/control-plane/src/faucet_job.rs:525-531 | the checked total is the true total iff that fits 64 bits |
| `CoinSelection.LargestDominate` | crates/control-plane/src/faucet_job.rs:492-502 | the k largest inputs are worth at least any k inputs |
| `CoinSelection.LeastPrefixIsMinimal` | crates/control-plane/src/faucet_job.rs:492-502 | no subset reaching the amount is smaller than the least largest-first prefix that does |
| `CoinSelection.SelectInputs` | crates/control-plane/src/faucet_job.rs:475-504 | the loop computes the specified selection without a 64-bit overflow or underflow |
| `CoinSelection.SelectionIsSound` | crates/control-plane/src/faucet_job.rs:475-504 | a selection comes from the candidates, reaches recipient plus change, and leaves the reserve |
| `CoinSelection.SelectionIsMinimal` | crates/control-plane/src/faucet_job.rs:492-502 | no choice of candidates reaching the amount uses fewer inputs |
| `CoinSelection.FailsExactlyOnReserve` | crates/control-plane/src/faucet_job.rs:497-503 | after the total check selection fails exactly when that least prefix breaks the reserve |
| `CoinSelection.SelectionIgnoresOrder` | crates/control-plane/src/faucet_job.rs:488-489 | the result does not depend on the order of the candidates |
| `CoinSelection.ChoiceFindsAWallet` | crates/control-plane/src/jobs.rs:6564-6588 | a wallet is chosen iff one that the request allows can pay; the automatic choice prefers the richer |
| `CoinSelection.WalletTestMatchesSelection` | crates/control-plane/src/jobs.rs:6558-6562 | the wallet test agrees with the selection's total check except at the 64-bit limit |
| `FeeDominance.DivCeil` | crates/control-plane/src/faucet_job.rs:604-606 | the rounded-up quotient is the least one whose multiple reaches the value |
| `FeeDominance.GreatestCovers` | crates/control-plane/src/faucet_job.rs:401-407 | the reported greatest rate covers every competitor |
| `FeeDominance.FlooredBeatsCeiled` | crates/control-plane/src/jobs.rs:2225-2231 | a floored rate that reaches the factor times a ceiled rate dominates the exact ratio |
| `FeeDominance.ArmedDominates` | crates/control-plane/src/jobs.rs:2196-2236 | passing the check means exact integer dominance by the factor over every competitor with positive size, the node's minimum and the spam bound |
| `FeeDominance.ArmedExactly` | crates/control-plane/src/jobs.rs:2196-2236 | a report passes iff the transaction is there as prepared and every competitor's rounded-up rate, the node's minimum and the spam bound are outbid a hundredfold, size by size |
| `FeeDominance.VerifyPriority` | crates/control-plane/src/jobs.rs:2196-2250 | the loop over the miners succeeds iff every miner passes, and then the transfer dominates every sized entry of every mempool |
| `FeeDominance.SameSetSameValue` | crates/control-plane/src/faucet_job.rs:564-573 | a transaction with the listed outpoints spends what the list is worth less what the list repeats |
| `FeeDominance.RepeatedExactly` | crates/control-plane/src/faucet_job.rs:564-573 | the list repeats nothing iff no outpoint of a positive amount is listed twice |
| `FeeDominance.AcceptedPaysNoFee` | crates/control-plane/src/faucet_job.rs:541-602 | an accepted transaction pays what it spends plus what the input list repeats |
| `ChainViews.DetectionIsExact` | crates/mining-controller/src/chain_view.rs:73-78 | the single comparison detects a rewritten history iff the entry at min(last, tip) is recorded, which it is in a view without gaps |
| `ChainViews.ChainView.InterruptedWalkHidesReorg` | crates/mining-controller/src/chain_view.rs:96-110 | a seeded view, an interrupted walk and a rewritten chain: the next healthy round reports nothing and keeps the replaced block |
| `ChainViews.RecordKeeps` | crates/mining-controller/src/chain_view.rs:30-45 | recording a block extends the agreement with the node and leaves no gap |
| `ChainViews.OwnAhead` | crates/mining-controller/src/chain_view.rs:36-44 | eviction forgets no own block that is still to be walked |
| `ChainViews.WalkedAt` | crates/mining-controller/src/chain_view.rs:98-110 | a walk puts the node's blocks over what was kept, height by height |
| `ChainViews.ForgetsTwice` | crates/mining-controller/src/chain_view.rs:35-44 | forgetting at every recorded block forgets exactly what forgetting once at the end would |
| `ChainViews.ForkIsTrue` | crates/mining-controller/src/chain_view.rs:49-59 | the reported fork is the last common height, or one below the window |
| `ChainViews.ChainView.Record` | crates/mining-controller/src/chain_view.rs:30-45 | the view keeps exactly the heights within the window, and own loses exactly the evicted hashes |
| `ChainViews.ChainView.FindFork` | crates/mining-controller/src/chain_view.rs:49-59 | the highest recorded height still on the node's chain, or just below the window |
| `ChainViews.ChainView.Sync` | crates/mining-controller/src/chain_view.rs:66-111 | after any growth, reorg or shortening, with any calls failing: the view is exactly what was kept below the fork and walked above it, over the last window, and own forgot exactly the rest; a healthy node's reorg is reported iff history differed and the entry to compare is recorded, with the true fork in a view without gaps; external marks are exactly the walked blocks not ours |
| `ChainViews.ChainView.ForgetReplaced` | crates/mining-controller/src/chain_view.rs:80-95 | exactly the entries above the fork are forgotten, what stays agrees with the node, and the fork is the true one |
| `ChainViews.ChainView.WalkUp` | crates/mining-controller/src/chain_view.rs:98-110 | the walk records exactly the node's blocks over what was kept and forgets exactly what lies a window below; an interrupted one is right up to where it stopped |
| `ChainViews.ChainView.Rounds` | crates/mining-controller/src/chain_view.rs:66-111 | over any number of rounds against any chains, with failing calls and rounds without a block, the view follows the chain it last saw until a walk is interrupted; healthy nodes interrupt none |
| `Bootstrap.PlannedExactlyInTime` | crates/mining-controller/src/bootstrap.rs:30-46 | blocks mined for a stage follow the plan if the miner's chain had reached it, and otherwise break it by the time they do, with one harmless exception |
| `Bootstrap.LaggingMinerMisassigns` | crates/mining-controller/src/bootstrap.rs:34-46 | the chain left by finishing stage 6 on a node3 that lagged behind stage 5 does not pay as planned |
| `Bootstrap.PaidAt` | crates/mining-controller/src/bootstrap.rs:37-46 | following the plan means every height pays its stage's address |
| `Bootstrap.MineStage` | crates/mining-controller/src/bootstrap.rs:66-107 | for any partly effective failures and however far the witness is, a stage ends exactly at its target on both nodes or fails, never overshoots, pays as planned if the miner was in time; it gives up only after eight requests that all failed, asks once if none does, and not at all if nothing is missing |
| `Bootstrap.Run` | crates/mining-controller/src/bootstrap.rs:22-110 | from nodes however far apart, a successful run ends at 204 on both, or mines nothing if already there; what it mined pays as planned iff node3 was not behind its own next stage; a broken run leaves nodes to resume from, with a bounded number of requests |
| `Bootstrap.RunThroughRestarts` | crates/mining-controller/src/bootstrap.rs:22-110 | restarts after any failures, in whatever state they left the nodes, end at 204 on both without overshoot; given the states the runs started from, the rewards are as planned iff node3 lagged at none of them; without failures there is one run, and they are |

## Left out

- HTTP, tokens, the dashboard, status sampling and the mempool seeder: input, output and presentation.
- RPC, signing, address parsing and serialization: nodes and wallets are abstract state with contracts; a failed call's effect is complete before the next read, so a worker policy still pending after a timed-out call is not modelled.
- Files are written atomically at their rename, except the event log, whose operations are modelled one by one.
- Clocks, lease times and threads: waiting is a bounded number of looks, leases may expire at any moment, steps under the manager lock are atomic, job ids are fresh.
- Reorg execution, partitions, degradations and scenario steps: bounded polling around RPC.
- Reading and printing single settings: an abstract codec with a round trip; floating-point fees are compared as reals.
- Own-set size of the chain view, and races between a sync and the following block.
- Rewind.CoordinatedRewindExecutor.Execute: blocks that arrive while a rewind runs are not modelled (recovery's promises hold for arbitrary nodes).
- Apply.Fleet.SetSpamPolicy: the refusal while a pause lease is active is one of the failing calls, so it may happen at any call but only finitely often.
- Apply.Transaction.ApplyWithContext: workers do not restart between its calls (any worker state is allowed before it), and a spam worker refusing because of a lease is a failed call; the generation is unbounded.
- Tuning.ParseMergedTuning: keys outside the catalogue are one key `Unknown`.
- Jobs.JobManager.Restart: events and lease intents of a job record are in their own modules; a recovery thread that could not be started is not modelled.
- Jobs.JobManager.RecoveryComplete: what recovery does for a job is in Leases and FaucetProtocol.
- Leases.LeaseCoordinator.RunJob: one job among others; workers never forget a request id, and the faucet's early exit after a failed mining acquisition, which does no cleanup and relies on lease expiry, is outside it.
- Leases.LeaseCoordinator.RecoveryLoop: a bounded number of rounds, because it need not terminate; its exact promise is for stretches without failing calls or expiring leases.
- Checkpoints.ScenarioBoard.Restart: an occurrence whose save failed is forgotten; generation 2^64-1 repeats, as in the program.
- EventLog.EventFeed.Emit: numbers are unbounded; the saturation at 2^64-1 is not modelled. The log of a job trimmed before its last events were indexed is gone, and its numbers above the saved counter may be used again.
- EventLog.EventFeed.FollowAll: completeness is for one process; what a restart does to it is `EventLog.RestartKeepsAccount`, and an event whose index save had failed, or that left the ring while other jobs' logs were still there, may come in below a cursor.
- FaucetProtocol.FaucetJob.RecoverFaucetJob: other requests' saves of the record in the middle of an attempt, which can only put the transaction on disk sooner.
- FaucetProtocol.FaucetJob.RunJob: scenarios with several faucet steps and other jobs' transfers; miner verification is a call that may fail (its arithmetic is FeeDominance).
- FaucetLedger.FaucetStore.Open: the file was written by this program; only the number of pending transfers is checked, as in the program.
- FeeDominance.AcceptedPaysNoFee: that a transaction does not spend one outpoint twice is what its validity guarantees.
- Bootstrap.Run: peers relay blocks while the miner waits for its witness, not between its calls; a node3 that caught up before the start is a start that does not lag.
- ChainViews.ChainView.Sync: a node's chain stays fixed during one call; that a reorg is reported iff there was one is promised for nodes whose calls answer.
