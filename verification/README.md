# Verified model of the monitoring server and its agents

A Dafny model of the parts of this repository whose correctness spans many steps, and proofs about them. Verify with
`dafny verify dfyconfig.toml`.

**The command stream that delivers agent updates.** The server numbers the update commands of a node in one stream and
keeps, per node, the stream row (next sequence, retired watermark, control state), one target per job with a sticky
execution status, cancel tombstones and sequence retirements. The agent keeps a stream id, a retired watermark, at most
one unfinished update, a window of 1024 execution records and a control state, and reloads a disk copy after a crash. A
handshake joins the two. The server's SQL transactions are atomic updates of one node's rows.

**Five smaller cores.** The hub of agent connections; retention of target rows; availability accounting; the alert
dispatcher and the alert and recovery episodes; the metric charts of the dashboard with the sampling query behind them.

| file | content |
|---|---|
| `Basics.dfy`, `Protocol.dfy`, `RetiredPrefix.dfy` | small common things; statuses, messages, the transition table; the scan for the contiguous closed prefix |
| `NodeTables.dfy`, `NodeInvariants.dfy`, `TransactionLaws.dfy` | every transaction as a function on one node's rows; what each of them keeps; what each of them does, in terms of the rows |
| `ServerRuns.dfy`, `StoreRuns.dfy` | all runs of the server, with restores of any earlier snapshot; the same events performed by the store as code |
| `AgentProtocol.dfy`, `AgentLaws.dfy`, `Collector.dfy` | every operation on the agent's state as a function; what each of them means; the same as methods of the agent object |
| `AgentRuns.dfy`, `SelfUpdate.dfy` | all runs of the agent with crashes; the staged executor as code, equal to a run |
| `HandshakeExchange.dfy`, `JointRuns.dfy`, `JointWitnesses.dfy` | one handshake exchange; server, agent and network together; joint runs in which a law fails |
| `JobAggregate.dfy`, `UpdateStore.dfy`, `Retention.dfy`, `ControlApi.dfy` | the store and the API handlers as methods over mutable tables |
| `Hub.dfy` | connection generations and fencing |
| `Availability.dfy`, `Dispatcher.dfy`, `AlertEpisodes.dfy` | offline time, the bounded queue, alert episodes |
| `StableSort.dfy`, `ChartPoints.dfy`, `MetricSampling.dfy`, `MetricSeries.dfy` | segments, budgets, reduction and deltas of charts |

Code that works by changing state is written as methods (of `Store`, `Collector`, `ConnectionHub`, `AlertDispatcher`,
`Evaluator`, or over local variables), each proved equal to a function of the old state; the properties are proved about
those functions, over all inputs and over all runs.

## Laws that fail, and exactly when they hold

- A restored server reuses the sequence of the agent's unfinished update exactly when it no longer remembers it:
  reconciliation looks at the retired watermark only (`ServerRuns.InProgressSequenceReuse`, with a whole run in
  `JointWitnesses.SequenceGivenTwice`). The second command is answered with the first one's state and never runs
  (`JointRuns.SecondJobSwallowed`).
- A restart reports an update as failed or cancelled although the executable was replaced only when the agent has been
  quarantined ever since it took the commit point, because a quarantined state is never saved (`AgentRuns.CrashSound`,
  `AgentRuns.QuarantineHidesInstall`).
- "An open answer means that every unknown was disposed of" holds for the unknowns the server still has a target for, and
  only for those: an agent is open after adopting the answer exactly when neither side was isolated, the stream ids
  agree, and each unknown it holds was disposed of or has no target any more (`HandshakeExchange.AnsweredOpenExactly`,
  `HandshakeExchange.UnblockedExactly`). A server restored to before the job opens an agent whose unknown nobody
  disposed of (`HandshakeExchange.ForgottenUnknownOpens`, with a whole run in `JointWitnesses.UnknownForgotten`).
- A cancel before the commit point is answered as done, and reaches the executor exactly when that is running: between
  admission and the start of the executor it stops nothing (`CollectorModel.Collector.HandleCancelRequest`, `SelfUpdate.CancelBeforeStart`).
- The comment at internal/store/updates_concurrency.go:159 says that a missing server stream is re-created from the
  agent's id. The code creates a fresh id and quarantines the node (`HandshakeExchange.LostStreamIsolates`). The model
  follows the code.
- Rows stay sound under a report without a stream id exactly when the node is isolated or the reported watermark stays
  below the next sequence (`NodeInvariants.ReconcileNeedsPromise`); the agent never sends another
  (`JointRuns.RowsAlwaysSound`).
- An outcome for the sequence right after the stored watermark carries the watermark past it exactly if everything before
  is closed in the rows (`TransactionLaws.OutcomePassesExactly`). A server that lost its rows and learnt the watermark from
  the agent waits for the agent's next report (`TransactionLaws.WatermarkWaits`).
- A second handling of the same handshake changes a target's status exactly when one of its reports names a legal move
  away from what the first one left (`HandshakeExchange.HandlingMovesExactly`). That never happens for what an agent can
  send (`HandshakeExchange.ReplayChangesNothing`), and does for contradictory records
  (`HandshakeExchange.IncoherentReplayMoves`).
- The samples that earn a recovery are successive exactly when no triggered sample was held back while they were
  counted (`AlertEpisodes.SuccessiveExactly`, `AlertEpisodes.RecoveryWithoutSuccession`).
- An unregistered connection becomes current again exactly when its queued registration is taken late
  (`Hub.BecomesCurrent`, `Hub.LateMessageRevives`).

## Model

| member | source | states |
|---|---|---|
| Protocol.TransitionAllowed | internal/store/updates_concurrency.go:446-457 | the table lookup of a report accepts exactly the legal moves |
| Protocol.ChangeClimbs | internal/store/updates_concurrency.go:334-399 | every real status change climbs a rank; an outcome is left only by disposing an unknown; "dispatched" is entered only from pending |
| Protocol.AtMostSevenChanges | internal/store/updates_concurrency.go:334-421 | any history of legal changes has at most seven real ones |
| Protocol.SevenChangesHappen | internal/store/updates_concurrency.go:334-399 | and seven do occur |
| Protocol.OutcomeAlwaysAccepted | internal/store/updates_concurrency.go:334-399 | an agent's outcome is accepted from every unfinished status, and from an outcome only if it is the same |
| Protocol.MovesExactly | internal/store/updates_concurrency.go:334-399 | the whole table as a rule: what is legal from where, in both directions |
| RetiredPrefix.PrefixUnique | internal/store/updates_concurrency.go:622-662 | at most one number is the end of the contiguous closed prefix |
| RetiredPrefix.PrefixMonotone | internal/store/updates_concurrency.go:622-662 | closing more sequences never lowers the scanned watermark |
| RetiredPrefix.ScanPrefix | internal/store/updates_concurrency.go:643-661 | the loop over the ordered rows finds the greatest w with all of 1..w closed |
| NodeInvariants.AdvanceKeeps | internal/store/updates_concurrency.go:664-679 | advancing the stored watermark keeps rows sound, fail-closed and justified, and lowers nothing |
| TransactionLaws.ClosedExactly | internal/store/updates_concurrency.go:622-662 | a sequence counts as closed exactly by a tombstone, a retirement or a target with an outcome |
| TransactionLaws.AdvanceReaches | internal/store/updates_concurrency.go:664-679 | advancing the stored watermark reaches the end of the closed stretch, not beyond, and changes nothing else |
| TransactionLaws.OutcomePassesExactly | internal/store/updates_concurrency.go:489-493 | the outcome of the next sequence carries the watermark past it exactly if all before it are closed |
| TransactionLaws.WatermarkWaits | internal/store/updates_concurrency.go:622-662 | rows for which it does not |
| NodeInvariants.ReportKeeps | internal/store/updates_concurrency.go:467-501 | so does a committed status report, with its block on unknown and its watermark advance |
| NodeInvariants.TransitionKeeps | internal/store/updates_concurrency.go:427-502 | so does a report that may be refused |
| TransactionLaws.TransitionMeans | internal/store/updates_concurrency.go:427-502 | a report is committed exactly if legal; which fields of its target it sets, when it blocks the node, and that an outcome lets the watermark catch up |
| NodeInvariants.BackfillRecordKeeps | internal/store/updates_concurrency.go:510-556 | so does one handshake record |
| TransactionLaws.RecordMeans | internal/store/updates_concurrency.go:510-556 | a handshake record is applied exactly if it names job and sequence and moves legally; what it sets; the watermark stays |
| NodeInvariants.BackfillRecordsKeep | internal/store/updates_concurrency.go:510-556 | so do all records of a handshake |
| NodeInvariants.BackfillInProgressKeeps | internal/store/updates_concurrency.go:559-586 | so does the unfinished update of a handshake, fail-closed when its stage is an in-progress one |
| TransactionLaws.StageMeans | internal/store/updates_concurrency.go:559-586 | so is the unfinished update, which sets the status only |
| NodeInvariants.TombstoneKeeps | internal/store/updates_concurrency.go:591-613 | so does a cancel tombstone |
| TransactionLaws.TombstoneMeans | internal/store/updates_concurrency.go:591-613 | a tombstone closes its sequence, marks the target, lets the watermark catch up, and moves no status |
| NodeInvariants.PruneKeeps | internal/store/updates_concurrency.go:852-871 | so does deleting a detail row: its sequence stays closed |
| TransactionLaws.PruneMeans | internal/store/updates_concurrency.go:852-871 | exactly the row goes, its sequence is retired, and the watermark catches up |
| TransactionLaws.ProtectedExactly | internal/store/updates_concurrency.go:877-975 | which targets retention never deletes |
| NodeInvariants.AllocateKeeps | internal/store/updates_concurrency.go:280-308 | so does an allocation: no hole and no sequence twice among the targets |
| NodeInvariants.AllocateTakesNext | internal/store/updates_concurrency.go:285-304 | an allocated sequence is the next one and beyond every earlier target's |
| TransactionLaws.AllocateMeans | internal/store/updates_concurrency.go:280-308 | the new target's fields, and the stream after it, also for a node without one |
| NodeInvariants.DeliveryKeeps | internal/store/updates_concurrency.go:319-329 | so does a delivery mark |
| TransactionLaws.DeliveryMeans | internal/store/updates_concurrency.go:319-329 | delivery state and time of the one target change |
| NodeInvariants.ResolveKeeps | internal/store/updates_concurrency.go:760-816 | so does the disposition of an unknown, fail-closed because the node opens only when none remains |
| TransactionLaws.ResolveMeans | internal/store/updates_concurrency.go:760-816 | an unknown target gets the operator's resolution, and the node opens exactly if no other unknown remains |
| NodeInvariants.ReconcileKeeps | internal/store/updates_concurrency.go:162-247 | so does a reconciliation with an agent that reports no watermark without a stream |
| TransactionLaws.EnsureMeans | internal/store/updates_concurrency.go:76-102 | a missing stream is created open under the fresh id; an existing one is kept, but for a next sequence that is not positive |
| TransactionLaws.ReconcileMeans | internal/store/updates_concurrency.go:162-247 | isolated: unchanged; another stream: quarantined; agreed: the watermark covers the report and catches up, and the next sequence lies beyond a named stream's watermark |
| TransactionLaws.QuarantineMeans | internal/api/api.go:3831-3842 | a reported quarantine isolates the node and changes nothing else |
| NodeInvariants.ReconcileNeedsPromise | internal/store/updates_concurrency.go:196-241 | without a stream id: sound exactly when the node is isolated or the watermark stays below the next sequence |
| ServerRuns.EveryStateSafe | internal/store/updates_concurrency.go:76-871 | in every state of every run with restores: distinct sequences below the next, no permanent hole, unknown means isolated, and the watermark claims only what is closed or was reported |
| ServerRuns.PlayForward | internal/store/updates_concurrency.go:622-679 | between restores the closed sequences, the counters and the scanned watermark only grow |
| ServerRuns.StepNumbers | internal/store/updates_concurrency.go:280-308 | no transaction changes a target's sequence, and only an allocation adds a target, at or beyond the next sequence |
| ServerRuns.AllocationsBeyondWatermark | internal/store/updates_concurrency.go:196-241 | after a restore, a matching reconciliation puts every later allocation beyond all the agent has retired |
| ServerRuns.InProgressSequenceReuse | internal/store/updates_concurrency.go:196-241 | after a reconciliation the sequence of the agent's unfinished update is out of reach exactly when the server still remembers it; otherwise the allocation with as many others before it as there are numbers in between takes it, whatever else happens short of another reconciliation |
| ServerRuns.OnlyDispositionOpens | internal/store/updates_concurrency.go:760-816 | an isolated node opens only by disposing of its last unknown |
| ServerRuns.StatusChangesBounded | internal/store/updates_concurrency.go:427-586 | a target changes status at most seven times in any run without restores |
| StoreRuns.Perform | internal/store/updates_concurrency.go:76-871 | every event of a server run is what the store's transaction does to the node's rows, and no other node's rows change |
| AgentProtocol.PutKeeps | internal/collector/agent_state.go:169-181 | the record window stays bounded with distinct keys, holds the new record, and otherwise only old ones |
| AgentProtocol.RecoverKeeps | internal/collector/agent_state.go:123-167 | recovery clears the update, passes its sequence and is idempotent |
| AgentProtocol.AckPromise | internal/collector/agent_state.go:275-313 | an acknowledgement leaves "no stream id, no watermark" intact exactly when it brings no watermark without a stream |
| AgentProtocol.OthersPromise | internal/collector/agent_state.go:329-454 | every other operation of the agent leaves it intact |
| AgentLaws.SameKeyExactly | internal/collector/agent_state.go:315-323 | two commands are the same exactly by sequence, else by job, else by hash |
| AgentLaws.AdmittedExactly | internal/collector/agent_state.go:329-402 | a command is admitted exactly when the agent is open, of its stream, idle, does not know it, and it is the next |
| AgentLaws.RefusedExactly | internal/collector/agent_state.go:334-381 | when each refusal is given, in both directions |
| AgentLaws.ReplayedExactly | internal/collector/agent_state.go:354-380 | what a repeated command is answered with |
| AgentLaws.BeginMeans | internal/collector/agent_state.go:329-402 | another stream isolates, a refusal changes nothing, and an admission becomes the task and its record |
| AgentLaws.AbortUndoes | internal/collector/collector.go:2052-2068 | undoing an admission restores the state before it, except the oldest record of a full window |
| AgentLaws.AbortOthersNothing | internal/collector/collector.go:2052-2068 | giving up any other command changes nothing |
| AgentLaws.ProgressMeans | internal/collector/agent_state.go:404-423 | a stage shows in the task and its record and nowhere else |
| AgentLaws.FinishMeans | internal/collector/agent_state.go:425-454 | an outcome is recorded, spends the sequence and blocks exactly when unknown |
| AgentLaws.MarksMean | internal/collector/agent_state.go:527-535 | the commit point and a cancel change that one mark of the task |
| AgentLaws.RecoverMeans | internal/collector/agent_state.go:123-167 | a restart records cancelled, failed, succeeded or unknown exactly by commit point, cancel intent and digest |
| AgentLaws.AckAdopted | internal/collector/agent_state.go:275-313 | an agreeing open answer is adopted, with its watermark when greater and its stream when the agent had none; any other isolates |
| AgentLaws.AckOpensNext | internal/collector/agent_state.go:275-402 | after it an idle agent admits the command that follows the answer's watermark |
| AgentLaws.HandshakeTells | internal/collector/agent_state.go:234-270 | every field of the handshake is the agent's |
| CollectorModel.FindRecord | internal/collector/agent_state.go:183-190 | finds the first record with the key, or none |
| CollectorModel.AppendRecord | internal/collector/agent_state.go:169-181 | the in-place edit replaces or appends and drops the oldest beyond the window |
| CollectorModel.DropRecords | internal/collector/collector.go:2060-2066 | the filter keeps exactly the records with other keys, in order |
| CollectorModel.Collector.Load | internal/collector/agent_state.go:89-116 | a missing file gives a fresh agent, a damaged one an isolated agent and stays as it is, and a state is recovered and saved |
| CollectorModel.Collector.Save | internal/collector/agent_state.go:192-232 | the file becomes the state, or stays when the state is quarantined or the write fails |
| CollectorModel.Collector.RecoverInProgress | internal/collector/agent_state.go:123-167 | memory and disk after resolving an update left by a crash |
| CollectorModel.Collector.HandshakePayload | internal/collector/agent_state.go:234-270 | the handshake reports stream, watermark, control state, unfinished update and all records |
| CollectorModel.Collector.ApplyHandshakeAck | internal/collector/agent_state.go:275-313 | memory and disk after the server's answer |
| CollectorModel.Collector.BeginUpdateTask | internal/collector/agent_state.go:329-402 | admission, replay, rejection or busy, and the save tried before any side effect |
| CollectorModel.Collector.DispatchAgentCommand | internal/collector/collector.go:1974-2002 | a command of another kind is refused and changes nothing; otherwise what is answered in each case, with sequence, stream and watermark |
| CollectorModel.Collector.UpdateTaskProgress | internal/collector/agent_state.go:404-423 | memory and disk after a stage change |
| CollectorModel.Collector.FinishUpdateTask | internal/collector/agent_state.go:425-454 | memory and disk after an outcome |
| CollectorModel.Collector.AbortUpdateTask | internal/collector/collector.go:2052-2068 | memory and disk after undoing an admission |
| CollectorModel.Collector.MarkCommitPoint | internal/collector/agent_state.go:527-535 | memory and disk after taking the commit point, which fails when it cannot be saved |
| CollectorModel.Collector.HandleCancelRequest | internal/collector/collector.go:1941-1972 | a cancel reaches a matching update before its commit point and is refused after it; the whole answer; a running executor is cancelled, one not started yet is not |
| AgentRuns.StepKeeps | internal/collector/agent_state.go:123-454 | every step, including a crash, keeps the invariant tying admissions, watermark, unfinished update, executor and disk together |
| AgentRuns.AtMostOnce | internal/collector/agent_state.go:329-402 | over every run with repeated, reordered and made-up commands and acknowledgements and crashes anywhere, sequences are admitted and installed in strictly increasing order |
| AgentRuns.CrashSound | internal/collector/agent_state.go:123-167 | of every update found on the disk in any run, running or not: success is reported only for the target's executable; failure or cancellation exactly before the commit point or when the quarantine hid it; so one that replaced the executable is reported failed only when hidden |
| AgentRuns.WorkIsOnDisk | internal/collector/agent_state.go:381-400 | while the executor works, its update is on the disk |
| AgentRuns.RestartSettles | internal/collector/agent_state.go:123-167 | a restart ends the update it finds with exactly one record, cancelled, failed, succeeded or unknown by commit point, cancel intent and digest, spends its sequence, blocks on unknown, and a second restart changes nothing |
| AgentRuns.CancelSurvives | internal/collector/agent_state.go:145-154 | a cancel noted before the commit point by an agent that is not quarantined survives any events while the update stays on the disk without a commit point: a restart records it as cancelled |
| AgentRuns.QuarantineHidesInstall | internal/collector/agent_state.go:192-203 | a run in which the new executable is installed and a crash then reports failure |
| SelfUpdate.PrepareUpdate | internal/collector/collector.go:2104-2207 | up to the commit point: which answer of the outside stops the attempt where, as cancelled or failed; what gets past it is signed and has the command's digest; agent and disk are where their run is |
| SelfUpdate.ReplaceAndExec | internal/collector/collector.go:2208-2237 | after the commit point every failure settles the update as unknown; only the rename changes the executable |
| SelfUpdate.PostCommitFailure | internal/collector/collector.go:2243-2247 | a failure after the commit point finishes the update as unknown |
| SelfUpdate.RunSelfUpdate | internal/collector/collector.go:2104-2237 | cancelled, failed, settled or executed exactly by what the outside answers; the executable is replaced exactly if everything up to the rename went well, and then by signed bytes with the command's digest |
| SelfUpdate.RunUpdateTask | internal/collector/agent_state.go:459-499 | one uninterrupted execution is the run of the stages the outside lets happen: memory, disk and executable are where that run brings them, and the context of the task ends with it |
| SelfUpdate.TrialExactly | internal/collector/collector.go:2104-2237 | when an update runs to the end, stops before the commit point, or is left past it |
| SelfUpdate.CancelledExactly | internal/collector/collector.go:2116-2207 | it counts as cancelled exactly if a cancelled context is the first thing that stops it |
| SelfUpdate.Receive | internal/collector/collector.go:1974-2002 | the object's handling of a command is the event of the agent's runs |
| SelfUpdate.Acknowledge | internal/collector/agent_state.go:275-313 | so is its handling of the server's answer |
| SelfUpdate.Cancel | internal/collector/collector.go:1941-1972 | so is its handling of a cancel meant for its task |
| SelfUpdate.GiveUp | internal/collector/collector.go:2052-2068 | so is giving up an admission |
| SelfUpdate.Restarts | internal/collector/agent_state.go:89-116 | so is a new object that loads what the old one left on the disk |
| SelfUpdate.CancelBeforeStart | internal/collector/agent_state.go:503-523 | a cancel before the executor has started is answered as done, and the update is installed if nothing else stops it |
| HandshakeExchange.AgentIsCoherent | internal/collector/agent_state.go:234-270 | an agent's handshake never contradicts itself |
| HandshakeExchange.HandledStatus | internal/store/updates_concurrency.go:508-586 | a handled handshake merges into each target only the report with its job and sequence |
| HandshakeExchange.OutcomesConverge | internal/api/api.go:3827-3879 | every outcome the agent holds for a live target is an outcome on the server after one exchange |
| HandshakeExchange.ReplayChangesNothing | internal/store/updates_concurrency.go:508-586 | handling the same handshake again changes no execution status |
| HandshakeExchange.HandlingMovesExactly | internal/store/updates_concurrency.go:508-586 | for any handshake at all: a status changes exactly when a report for the target names a legal move away from it |
| HandshakeExchange.IncoherentReplayMoves | internal/store/updates_concurrency.go:508-586 | two contradictory records make a second handling change a status |
| HandshakeExchange.OpenAfterRecords | internal/store/updates_concurrency.go:510-556 | the backfill leaves a node open exactly when it was open and no reported unknown is an unknown there |
| HandshakeExchange.AnsweredOpenExactly | internal/api/api.go:3827-3879 | the answer to any agent names the server's stream and is open exactly under that condition on the rows before the handshake |
| HandshakeExchange.HeldUnknownsStay | internal/store/updates_concurrency.go:510-556 | an unknown the agent holds keeps its disposition, or is an unknown on the server afterwards |
| HandshakeExchange.UnblockedExactly | internal/api/api.go:3827-3879 | any agent, bound or not, in any control state, is open after any server's answer exactly when neither was isolated, the stream ids agree, and every unknown it holds with a target on the server was already disposed of |
| HandshakeExchange.ForgottenUnknownOpens | internal/api/api.go:3827-3879 | an agent with an unknown that nobody disposed of is opened by a server without the jobs, and keeps the record |
| HandshakeExchange.LostStreamIsolates | internal/store/updates_concurrency.go:162-220 | a lost stream row meets a bound agent with a fresh id and isolates the node |
| JointRuns.RowsAlwaysSound | internal/store/updates_concurrency.go:76-871 | with the repository's own agent on a network that repeats, reorders and loses, with crashes and restores, the server's rows are sound and fail closed in every state |
| JointRuns.NothingSkipped | internal/collector/agent_state.go:275-313 | every sequence at or below the agent's watermark, in memory or on disk, or the server's, had an outcome on the agent or was closed on the server |
| AgentRuns.SettledExactly | internal/collector/agent_state.go:425-457 | a sequence counts as having an outcome exactly when some event ended its task and left a final record of it |
| JointRuns.ClosedExactly | internal/store/updates_concurrency.go:619-644 | over all joint runs a sequence counts as closed exactly when the rows of some moment showed a tombstone, a retirement or a finished target for it |
| JointRuns.EachJobAtMostOnce | internal/collector/agent_state.go:329-402 | over all joint runs each job is admitted at most once, in increasing sequence order, among the sequenced admissions that were not undone |
| JointRuns.SecondJobSwallowed | internal/collector/agent_state.go:347-378 | a job under the sequence of the unfinished update is answered with the other job's state and changes nothing |
| JointWitnesses.SequenceGivenTwice | internal/store/updates_concurrency.go:196-241 | a run of server, agent and network in which a restore gives two jobs the same sequence while the agent works on the first |
| JointWitnesses.UnknownForgotten | internal/api/api.go:3827-3879 | a run of server, agent and network with a restore in which the agent ends open with an unknown that nobody disposed of |
| JobAggregate.AggregateUpdateJobStatus | internal/store/store.go:2061-2109 | the counting loop depends only on which statuses occur, and its last fallthrough is never reached |
| JobAggregate.AggregateExactly | internal/store/store.go:2061-2109 | pending, completed, failed and partially failed, each exactly by which statuses occur |
| JobAggregate.SettledExactly | internal/store/store.go:2061-2109 | a job is past pending and running exactly when it has targets and all have an outcome |
| JobAggregate.SettledStays | internal/store/store.go:2061-2109 | a settled job stays settled when its targets change legally |
| UpdateStore.RecomputeKeeps | internal/store/store.go:2244-2273 | recomputing the one job whose targets changed restores "stored status is the aggregate" for all jobs |
| UpdateStore.JobStatusMeans | internal/store/store.go:2244-2273 | the same over the job's targets on all nodes |
| UpdateStore.RecomputeSettles | internal/store/store.go:2244-2273 | a transaction that changes statuses only legally, and recomputes the job, leaves every settled job of the store settled |
| UpdateStore.RetiredWatermarkFrom | internal/store/updates_concurrency.go:622-662 | the query and its loop compute the contiguous closed prefix of terminal, tombstoned and retired sequences |
| UpdateStore.AdvanceRetiredWatermarkTx | internal/store/updates_concurrency.go:664-679 | the stored watermark becomes the maximum of itself and the prefix: it reaches the end of the closed stretch, and rises no further |
| UpdateStore.EnsureStreamTx | internal/store/updates_concurrency.go:76-102 | loads the stream, repairs a next sequence below one, or creates it with a fresh id |
| UpdateStore.ReconcileTx | internal/store/updates_concurrency.go:162-247 | the branches of a reconciliation, step by step |
| UpdateStore.TransitionTx | internal/store/updates_concurrency.go:433-501 | commits exactly the legal reports, with all fields, block and watermark |
| UpdateStore.BackfillRecordTx | internal/store/updates_concurrency.go:510-556 | applies exactly the records that match job and sequence and move legally |
| UpdateStore.PendingDeliveries | internal/store/updates_concurrency.go:691-732 | the first unstarted commands beyond the watermark in sequence order, up to the limit, none before them left out |
| UpdateStore.Store.EnsureCommandStream | internal/store/updates_concurrency.go:106-120 | the node's stream exists and is returned; nothing else changes |
| UpdateStore.Store.SetNodeControlState | internal/store/updates_concurrency.go:138-150 | only the control state changes |
| UpdateStore.Store.ReconcileCommandStream | internal/store/updates_concurrency.go:162-247 | the reconciled stream is stored and returned |
| UpdateStore.Store.RecomputeUpdateJobStatus | internal/store/store.go:2244-2273 | the job's stored status becomes the aggregate of its targets |
| UpdateStore.Store.RecordTargetDelivery | internal/store/updates_concurrency.go:319-329 | delivery state and time change, execution state does not |
| UpdateStore.Store.ApplyExecutionTransition | internal/store/updates_concurrency.go:427-502 | commits exactly the legal reports, with all fields of the target, the block on unknown and the watermark that catches up on outcomes; keeps other nodes and every cached job status, and unsettles no job |
| UpdateStore.Store.ApplyHandshakeBackfill | internal/store/updates_concurrency.go:508-586 | all records in turn and then the unfinished update, keeping every cached job status true and unsettling no job |
| UpdateStore.Store.CreateCancelTombstone | internal/store/updates_concurrency.go:591-613 | tombstone, cancel intent and a watermark that catches up, in one transaction |
| UpdateStore.Store.ResolveUnknownTarget | internal/store/updates_concurrency.go:760-816 | refused exactly without evidence or reason, for a resolution that is none, or unless unknown; otherwise the target gets the resolution, the node opens when no other unknown remains, and no job is unsettled |
| UpdateStore.Store.FinalizeUpdateJobsForNodeVersion | internal/store/store.go:2198-2235 | exactly the node's unfinished targets of jobs for that version are moved to succeeded, the protocol invariants kept and no job unsettled |
| UpdateStore.SucceedAllMeans | internal/store/store.go:2198-2235 | the finalized targets end as succeeded and all others keep their status |
| UpdateStore.SucceedAllEvolves | internal/store/store.go:2198-2235 | finalizing any targets keeps the rows sound, fail-closed and justified, and lowers nothing |
| UpdateStore.Store.CreateUpdateJobWithTargets | internal/store/updates_concurrency.go:253-315 | all targets allocated or nothing changed, exactly by the primary keys |
| UpdateStore.CreationCached | internal/store/updates_concurrency.go:253-315 | a created job's stored status is the aggregate of its new targets, and no other job's changes |
| Retention.PruneAllMeans | internal/store/updates_concurrency.go:852-871 | exactly the listed rows go, each leaving its sequence among the retirements |
| Retention.PruneAllEvolves | internal/store/updates_concurrency.go:852-871 | deleting any rows keeps soundness, fail-closed, and every counter and closed sequence |
| Retention.DetailRetained | internal/store/updates_concurrency.go:877-975 | aged rows go, at most 1024 unprotected ones stay, the oldest go first, and no protected row goes |
| Retention.RetainedMeans | internal/store/updates_concurrency.go:877-975 | the same in terms of statuses, times and counts: what stays, what goes, and why |
| Retention.DetailEvolves | internal/store/updates_concurrency.go:877-975 | the whole deletion keeps the protocol invariants |
| Retention.PruneUpdateDetail | internal/store/updates_concurrency.go:877-975 | the same for every node in one pass |
| ControlApi.HandleAgentHandshake | internal/api/api.go:3827-3879 | quarantine, reconciliation and backfill in order; answered only on the current connection, and an open node is then sent what it is due |
| ControlApi.HandleAgentCommandStatus | internal/api/api.go:2746-2784 | a report reaches the rows exactly if it rejects nothing, names the target's sequence and stream if it names a sequence, and moves legally; and then it is committed as such |
| ControlApi.DeliverTarget | internal/api/api.go:2929-2980 | when a command is sent to one target, what it conveys of job, version, digest, stream and sequence, and the rows after each failure |
| ControlApi.DeliverTargets | internal/api/api.go:2929-2980 | the same for every target of a new job, each by its own connection; no other node's rows change |
| ControlApi.DeliveredMeans | internal/api/api.go:2929-2980 | a pending target ends skipped, dispatched or still pending, exactly by the state of its connection; its delivery mark, and the watermark that catches up when it is skipped |
| ControlApi.AttemptAllMeans | internal/api/api.go:2991-3038 | resending only marks pending targets as dispatched and never regresses an agent's progress |
| ControlApi.AttemptAllEvolves | internal/api/api.go:2991-3038 | resending keeps the protocol invariants |
| ControlApi.CommandsInOrder | internal/api/api.go:3011-3038 | commands go out only for unstarted targets beyond the watermark, in strictly increasing sequence order, each with its job's version and digest and its target's stream and sequence |
| ControlApi.GenuineIsTheJobs | internal/api/api.go:3018-3030 | an executable that the agent takes for genuine for such a command has the digest of the job |
| ControlApi.ResendReaches | internal/api/api.go:2991-3038 | over a lasting connection every unstarted command beyond the watermark of an open node reaches the agent and is marked, if there are at most sixty-four |
| ControlApi.ResendPendingDeliveries | internal/api/api.go:2991-3038 | nothing for an isolated node; otherwise the first 64 undelivered commands in order, none before them left out, attempted up to exactly the first failing send or the loss of the connection |
| ControlApi.CancelUpdateJob | internal/api/api.go:3044-3096 | a missing job changes nothing; otherwise exactly the selected sequenced targets get a tombstone, exactly the selected targets with a ready connection the message, and no execution status is touched |
| Hub.ConnectionHub.EnterRegistration | internal/hub/hub.go:182-205 | a new generation replaces and fences the old one in one critical section; none on a closed hub |
| Hub.ConnectionHub.LeaveRegistration | internal/hub/hub.go:212-227 | the registration is queued, or undone when the hub closed meanwhile |
| Hub.ConnectionHub.RunRegister | internal/hub/hub.go:100-118 | a queued registration takes the map entry unless a newer generation holds it |
| Hub.ConnectionHub.UnregisterGeneration | internal/hub/hub.go:249-257 | a non-zero generation is queued for removal |
| Hub.ConnectionHub.RunUnregister | internal/hub/hub.go:128-137 | removes the entry only if it still has that generation |
| Hub.ConnectionHub.FenceAgents | internal/hub/hub.go:422-429 | the loop fences exactly the connections in the map |
| Hub.ConnectionHub.EnterClose | internal/hub/hub.go:420-432 | the first close fences everything and empties the map |
| Hub.ConnectionHub.RunShutdown | internal/hub/hub.go:162-173 | the loop's last act does so again |
| Hub.ConnectionHub.CompleteHandshake | internal/hub/hub.go:292-304 | succeeds exactly for the current unfenced generation |
| Hub.ConnectionHub.SendToAgent | internal/hub/hub.go:263-287 | writes exactly to the current unfenced generation |
| Hub.FencedForever | internal/hub/hub.go:97-257 | over every interleaving a fenced generation is never again current, ready or written to |
| Hub.RegisterReplaces | internal/hub/hub.go:182-205 | registering makes the new generation current, fences the one before, and touches no other node |
| Hub.HandshakenOnce | internal/hub/hub.go:292-304 | a connection marked ready completed its own handshake while current |
| Hub.BecomesCurrent | internal/hub/hub.go:100-118 | the only two ways in which a generation becomes current |
| Hub.CurrentExactly | internal/hub/hub.go:336-359 | the current generation is the one in the map unless fenced, and none on a closed hub |
| Hub.ReadyExactly | internal/hub/hub.go:317-331 | a node is ready exactly if its current connection has completed its handshake or had its time |
| Hub.LeavesMapExactly | internal/hub/hub.go:128-173 | the only four ways in which a node leaves the map |
| Hub.TakesMapExactly | internal/hub/hub.go:100-118 | the only two in which a generation takes a place there |
| Hub.FencedExactly | internal/hub/hub.go:182-205 | a connection is fenced exactly when replaced, or by close or shutdown while in the map |
| Hub.HandshakeReadies | internal/hub/hub.go:292-304 | completing the handshake of the current connection makes the node ready |
| Hub.QueuesExactly | internal/hub/hub.go:97-257 | the message queues are first-in first-out, and writes go to the current generation only |
| Hub.GoneForGood | internal/hub/hub.go:128-137 | once out of the map with no message queued, a generation never returns |
| Hub.LateMessageRevives | internal/hub/hub.go:110-114 | a run in which an unregistered generation is current again |
| Hub.ShutdownEmpties | internal/hub/hub.go:162-173 | after close and shutdown the map stays empty and nothing is written, whatever was under way |
| Hub.ClosedReportsNothing | internal/hub/hub.go:317-359 | a closed hub reports no generation current or ready |
| Availability.OutagesSound | internal/store/store.go:2662-2692 | outages are disjoint intervals of the window, and with any sample leave five seconds each on line |
| Availability.SilencesExactly | internal/store/store.go:2667-2692 | the outages are exactly the silences of more than twenty seconds between neighbouring samples, from five seconds after the one to the other |
| Availability.OfflineSeconds | internal/store/store.go:2641-2692 | the offline time is the number of seconds that lie in such a silence, and all of the window without samples |
| Availability.MoreSamplesNeverHurt | internal/store/store.go:2662-2692 | merging more samples into the window keeps them all and never adds offline time |
| Availability.CostSuperadditive | internal/store/store.go:2667-2674 | splitting a gap never costs more than the gap |
| Availability.BuildSummary | internal/store/store.go:2641-2704 | the loop's counts, sum and last outage are those of the outages of the samples in the window |
| Availability.SummaryIsOutages | internal/store/store.go:2662-2692 | for samples of the window these are the outages of the sound theory |
| Availability.PercentInRange | internal/store/store.go:2694-2702 | the percentage lies in 0..100 and is 100 exactly without offline time |
| Availability.PercentMeans | internal/store/store.go:2694-2702 | the percentage is the part of the window that was not offline |
| Dispatcher.AlertDispatcher.Enqueue | internal/alerting/dispatcher.go:172-218 | accepts exactly when open and below capacity and then appends; otherwise counts, and logs at most once per interval |
| Dispatcher.AlertDispatcher.Dequeue | internal/alerting/dispatcher.go:268-284 | takes the oldest; with none, ends once closed and waits otherwise |
| Dispatcher.AlertDispatcher.ShouldLogDrop | internal/alerting/dispatcher.go:220-238 | whether to log and how many drops the line reports |
| Dispatcher.AlertDispatcher.ApplyQueueCapacity | internal/alerting/dispatcher.go:484-502 | only the capacity changes, a non-positive one to the default |
| Dispatcher.RunConserves | internal/alerting/dispatcher.go:172-284 | over every run with capacity changes and close: done, in hands and queued are the accepted work in order; offers are accepted or dropped; log lines add up and are an interval apart |
| Dispatcher.GrowsBelowCapacity | internal/alerting/dispatcher.go:177-213 | the queue grows exactly by an offer while open and below the current capacity, and every other offer is counted as dropped |
| Dispatcher.SettingsStay | internal/alerting/dispatcher.go:484-502 | the capacity is the one set last, and the close is final |
| Dispatcher.LoggedExactly | internal/alerting/dispatcher.go:183-238 | which drops are logged, and how many drops a line reports |
| Dispatcher.HighWater | internal/alerting/dispatcher.go:209-216 | the high-water mark is the greatest length the queue ever had |
| Dispatcher.ClosedDrains | internal/alerting/dispatcher.go:240-284 | a closed queue still completes everything accepted before the worker ends |
| AlertEpisodes.Evaluator.ProcessAlert | internal/alerting/alerting.go:52-69 | the tables and the notice after one triggered sample, sent, suppressed or failed |
| AlertEpisodes.Evaluator.ProcessRecovery | internal/alerting/alerting.go:70-113 | the tables and the notice after one quiet sample |
| AlertEpisodes.Evaluator.BuildEvents | internal/alerting/alerting.go:181-197 | the triggered readings in order, and the quiet ones in order |
| AlertEpisodes.FilterPicks | internal/alerting/alerting.go:181-197 | each reading is listed once, with the others of its kind, in order |
| AlertEpisodes.AlertsFirst | internal/alerting/alerting.go:52-113 | a report has one event for every reading, alerts first |
| AlertEpisodes.Evaluator.Process | internal/alerting/alerting.go:35-115 | nothing unless the settings ask for the node; otherwise alerts before recoveries, ended by the first failed send |
| AlertEpisodes.SettingsSilence | internal/alerting/alerting.go:35-50 | nothing is evaluated while notifications are off, have no recipient, or leave the node out |
| AlertEpisodes.SettingsSpeak | internal/alerting/alerting.go:244-268 | and otherwise the events of the report are handled in order |
| AlertEpisodes.ReportsProject | internal/alerting/alerting.go:35-115 | over any reports of any nodes the tables of a node and metric, and the notices sent about them, are those of the run of its samples |
| AlertEpisodes.ReportedRecoveriesAlternate | internal/alerting/alerting.go:35-115 | so an alert about a node and metric lies between any two recoveries sent about them, whatever is reported |
| AlertEpisodes.RecoveriesAlternate | internal/store/store.go:1885-1981 | between two recoveries an alert was sent, and a streak exists only during an alert |
| AlertEpisodes.RecoveryEarned | internal/alerting/alerting.go:70-113 | a recovery is sent only after the configured number of quiet samples since the last delivered alert |
| AlertEpisodes.SuccessiveExactly | internal/alerting/alerting.go:52-113 | the counted samples are successive exactly when no triggered one was held back while counting |
| AlertEpisodes.RecoveryWithoutSuccession | internal/alerting/alerting.go:52-113 | a run in which they are not |
| AlertEpisodes.AlertSentExactly | internal/alerting/alerting.go:52-69 | an alert goes out exactly when the sending succeeds and no alert of the episode is more recent than the cooldown |
| AlertEpisodes.RecoverySentExactly | internal/alerting/alerting.go:70-113 | when a recovery goes out, when an episode ends, and what is counted until then |
| AlertEpisodes.AlertsCooldownApart | internal/store/store.go:1885-1901 | the alerts of one episode are at least the cooldown apart across severities |
| AlertEpisodes.RecoveriesCooldownApart | internal/store/store.go:1932-1958 | the recoveries sent are at least their own cooldown apart, across episodes |
| AlertEpisodes.GravityGrows | internal/alerting/alerting.go:199-207 | a higher value is never classified as less grave, and without positive thresholds nothing is |
| AlertEpisodes.GravityExactly | internal/alerting/alerting.go:199-207 | critical exactly from a positive critical threshold on, and otherwise a warning exactly from a positive warning threshold on |
| StableSort.RankSelects | frontend/src/lib/metric-series.ts:324-325 | the key at a rank of the sorted list is the one value with at most that many keys below it and more up to it |
| MetricSeries.GetGapBreakThreshold | frontend/src/lib/metric-series.ts:310-327 | the loop, the sort and the bound compute the threshold |
| MetricSeries.ThresholdIsMedian | frontend/src/lib/metric-series.ts:310-327 | the threshold is six times the one median of the positive distances between rows, at least thirty seconds, and thirty seconds where there are none |
| MetricSeries.TogetherExactly | frontend/src/lib/metric-series.ts:329-351 | neighbouring rows stay together exactly if time goes on within the threshold and no shorter uptime shows a restart |
| MetricSeries.SplitMetricSegments | frontend/src/lib/metric-series.ts:281-308 | the rows in order, cut exactly where a break is due |
| MetricSeries.SegmentationUnique | frontend/src/lib/metric-series.ts:281-308 | no other cutting has that property |
| MetricSeries.GetMetricRangeDelta | frontend/src/lib/metric-series.ts:179-203 | the loops compute the gain between linked neighbouring rows, or nothing when there is none |
| MetricSeries.StretchesCover | frontend/src/lib/metric-series.ts:128-144 | the stretches are the longest: a pair of rows is linked exactly if one covers it, and no two share a row |
| MetricSeries.TotalIsGains | frontend/src/lib/metric-series.ts:179-203 | the total adds up what the counter gained within the longest stretches, from first to last row |
| MetricSeries.TotalTelescopes | frontend/src/lib/metric-series.ts:179-203 | within linked rows the total gains what the counter gained, and elsewhere nothing |
| MetricSeries.DeltaChartSegments | frontend/src/lib/metric-series.ts:111-144 | the loops with their flushes compute the running total drawn over the longest stretches, and whether anything was gained |
| MetricSeries.TallySegments | frontend/src/lib/metric-series.ts:111-144 | the row-by-row accumulation and the curves over the longest stretches are the same |
| MetricSeries.BuildMetricDeltaChartSeries | frontend/src/lib/metric-series.ts:106-151 | the chart is those segments merged under "last", or empty without a gain |
| MetricSeries.ChartShowsDelta | frontend/src/lib/metric-series.ts:106-203 | the chart is empty exactly when the range delta is undefined, and otherwise its last point is that delta |
| MetricSeries.ReadingsOnCurve | frontend/src/lib/metric-series.ts:106-151 | every point of the chart is the running total at one of the rows, in row order, so the points never fall |
| MetricSeries.DeltaChartWithinBudget | frontend/src/lib/metric-series.ts:106-151 | with n stretches at most max(budget, n) + n - 1 points |
| ChartPoints.AllocateSegmentBudgets | frontend/src/lib/metric-series.ts:382-411 | the map, sort and round-robin loop compute the shares, topped up in the order of falling remainders |
| ChartPoints.ShareMeans | frontend/src/lib/metric-series.ts:390-400 | a share is the whole part of the proportional share, at least one, and its remainder what is left of it |
| ChartPoints.BudgetsBound | frontend/src/lib/metric-series.ts:382-411 | every budget is at least one and the sum lies between T and T + n - 1 |
| ChartPoints.LargestRemaindersFirst | frontend/src/lib/metric-series.ts:393-408 | beyond its share a segment gets at most one point, largest remainders first |
| ChartPoints.DownsampleSeries | frontend/src/lib/metric-series.ts:413-446 | the bucket loop computes the reduction |
| ChartPoints.PickedMeans | frontend/src/lib/metric-series.ts:425-443 | a bucket becomes its last point, or the mean of its values at its last time |
| ChartPoints.TotalAdds | frontend/src/lib/metric-series.ts:437-437 | the total of two parts is the sum of theirs |
| ChartPoints.TotalOfOne | frontend/src/lib/metric-series.ts:437-437 | and that of one point its value |
| ChartPoints.ReducedBuckets | frontend/src/lib/metric-series.ts:422-443 | the buckets are the series in order, all of the bucket size but the last |
| ChartPoints.BucketSizeLeast | frontend/src/lib/metric-series.ts:422-422 | the bucket size is the least with which the target covers the series |
| ChartPoints.WithinTarget | frontend/src/lib/metric-series.ts:413-446 | at most the target's number of points, and empty only if the series was |
| ChartPoints.KeepsFinal | frontend/src/lib/metric-series.ts:422-443 | the final point survives, with its value under "last" |
| ChartPoints.ReducedBetween | frontend/src/lib/metric-series.ts:425-443 | no reduced value leaves the range of the given values, averaged or not |
| ChartPoints.MergeSegmentedSeries | frontend/src/lib/metric-series.ts:353-380 | filter, budgets, reduction and separators, in order |
| ChartPoints.NonEmptyAre | frontend/src/lib/metric-series.ts:358-358 | exactly the segments with points are kept, in order |
| ChartPoints.ValuesAppended | frontend/src/lib/metric-series.ts:366-377 | a separator adds no point and loses none |
| ChartPoints.AppendedMeans | frontend/src/lib/metric-series.ts:366-377 | one separator between two groups, after the last point and before the next where there is room |
| ChartPoints.ChartWithinBudget | frontend/src/lib/metric-series.ts:353-411 | with n non-empty segments at most max(target, n) + n - 1 points |
| ChartPoints.ChartEnds | frontend/src/lib/metric-series.ts:353-380 | the chart ends where the last non-empty segment ends, and is empty only if all are |
| MetricSampling.ReductionMatchesQuery | internal/store/store.go:3110-3137 | for strictly ascending timestamps and a positive target the query and the "last" reduction select the same timestamps |

## Left out

- Deleting a node: it drops the node's rows whole, and node ids never return.
- Audit log, display texts, display times, delivery attempts and connection generations of targets, stalled-update observation: they feed no decision modelled here.
- HTTP, sessions, JSON, WebSocket and SQL themselves: messages are datatypes, transactions are atomic, sends succeed or fail by a parameter.
- Hashing and signatures themselves: an executable is known by its hash, and a signature verifies or not.
- Trimming and case folding of strings, 64-bit overflow of sequences and counters, floating point: integers are unbounded, chart values and percentages are real numbers.
- In `AgentRuns`, `JointRuns` and the other runs over them: a save of the agent's state that fails, and a lost or damaged state file; the methods of `CollectorModel` cover both. A start without any path for the file.
- Two executors at once on one agent (the built-in update check beside a remote command).
- SelfUpdate.RunUpdateTask: runs uninterrupted and with saves that succeed except that of the commit point, because acknowledgements and cancels between its stages are the subject of `AgentRuns`; and without the outcome "succeeded" of an executor that returns although it replaced no process, which the code calls possible for a stub only.
- Retention.PruneUpdateDetail: the deletions of one pass are not interleaved with other transactions, and the cached status of a job is not claimed after its rows were pruned.
- NodeInvariants.BackfillInProgressKeeps: fail-closed only for in-progress stages, because the backfill does not check the stage; the agent reports no other (`JointRuns.RowsAlwaysSound`).
- UpdateStore.Store.FinalizeUpdateJobsForNodeVersion: the order of the query is any.
- Progress of the resend path: a sequence gap sends no new acknowledgement, so nothing is promised about when it closes.
- When a cancelled executor stops: the cancel is acknowledged before the executor observes it.
- Hub subscribers and broadcasts, channel capacities, the socket of a connection (its generation identifies it) and the lookup of a generation by socket.
- Heartbeat alerts, reading metrics and thresholds from the payload and the settings, and sending a drop alert.
- Rate series, single-value series and the other charts: they use the segmentation, budgets and reduction proved here.
