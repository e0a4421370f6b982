# Verified models of the orchestration core

This project models the hard parts of the `core/` runtime in Dafny and proves what they promise.

| component | modules | main results |
|---|---|---|
| Byzantine replication | `ConsensusNode`, `Cluster`, `ConsensusService`, `Divergence` | honest ledgers agree and stay hash chains over every run of exactly the clusters in which two quorums share more nodes than are Byzantine; tolerating f faults, these are the sizes 3f+1, and for every other size lawful runs end in different ledgers; an honest quorum can record any list of payloads |
| proof ledger and fork healing | `Ledger`, `ProofLedger`, `Chains`, `BestChain`, `ForkResolver`, `Reconciliation` | the dynamic program picks the unique best chain, a chain that passes a quorum is preferred among the longest ones, replay picks the same one, the rewritten file passes both audits, no consistent block is lost |
| workspace transactions | `Workspace`, `Isolation`, `CrashRecovery` | the overlay refines the live tree, concurrent transactions have the writes of a serial order, and its reads too for exactly the programs that open for writing what they read, a stage is all or nothing across any crashes exactly when it is recorded before its commit and recording does not fail |
| three-stage pipeline | `Pipeline`, `PipelineRuns`, `PipelineService` | no deadlock, termination, the same result after any crashes and resumes, and no checkpoint after a run that has finished |
| cached DAG scheduler | `DagSemantics`, `DagEngine`, `DagService`, `DagTiming` | every interleaving of tasks, cancellations, prefetches and cache hits computes recursive evaluation, in which every node is called with the values of the nodes it names; results are free of timing for exactly the graphs that pass values only between ordered nodes |
| rollups | `Sorting`, `Merkle`, `Rollup`, `RollupPeers`, `RollupEngine` | a journal accepts exactly one payload per range and is bound by it, exactly the peers with the same ties accept, batches partition the sequence numbers, own batches verify |
| codecs | `Bits`, `Fnv`, `WebSocket` | FNV-1a detects every single-byte change; frames of RFC 6455 have the layout of the standard and read back exactly |

Conventions. Coroutines are cut at their suspension points (`await`, lock acquisition, work handed to a
thread), so each step function is one uninterrupted stretch, and a run is any sequence of such steps.
Where the program updates an object in place there is a class whose methods are proved to do what the
step function says of the old state. SHA-256 over ledger headers is an arbitrary function; where a
statement needs it, collision freedom is assumed only of the blocks at hand (`CollisionFree`), because a
total injection into 64 hexadecimal digits does not exist. In the rollup modules a digest is a symbolic
term, which makes different inputs visibly different. Clock readings, uuids, agents, validators and node
functions are parameters.

Where the code does less than its documentation suggests, the model follows the code and says when the
promise holds:

- The quorum 2f+1 with f = (n-1)/3 gives two quorums an honest common member only when n = 3f+1
  (`Cluster.QuorumRuleSafeIff`), but the code accepts any number of peers. `Divergence.AgreementIff` says of
  every cluster whether its runs agree, and `Divergence.SizeAgreesIff` of every size n whether all clusters
  with at most f Byzantine members do: if and only if n = 3f+1.
- A read takes no lock, so a transaction that reads a file before it opens it for writing can base its
  write on a version that another transaction has replaced meanwhile. All opens of a
  transaction return what they would return at its commit if and only if it opens every path for writing
  before it reads it (`Isolation.SerialIff`).
- A commit is all or nothing across crashes only with a checkpoint manager whose `record_stage` succeeds
  (`CrashRecovery.CrashAtomicIff`). Without a manager a crash can leave half of a stage's files
  (`CrashRecovery.TornCommit`). After a failed `record_stage` the stage is neither committed nor rolled
  back, and a restart after a later checkpoint publishes it over newer files
  (`CrashRecovery.StaleStageReturns`). Runs in which no checkpoint is recorded while an earlier stage's
  directory is left stay atomic even then (`CrashRecovery.CleanRunsAreAtomic`).
- A batch holding an empty correlation id or event is refused by its own engine's verifier
  (`Rollup.OwnBatchAcceptedIff`).
- The duplicate-last rule lets two batches of different sizes share a root exactly when their trees are
  equally deep (`Merkle.CountsBindIff`, `Rollup.RootsBindIff`); the verifier's count check closes this.
- The Merkle root is independent of arrival order exactly for batches in which no two different
  transactions tie in the sort key, which cuts durations to microseconds (`Rollup.OrderFreeIff`);
  exactly these batches are accepted by every peer that recorded them in another order
  (`RollupPeers.AnyOrderAcceptedIff`).
- A node may name any registered node in `upstream_kwargs`. A node that is neither before nor behind it may or
  may not be done when the value is taken, and then the result depends on timing (`DagTiming.TimingFreeIff`).

## Model

| member | source | states |
|---|---|---|
| Cluster.Agreement | core/consensus_node.py:542-717 | In every state reachable by any events (loss, repetition, reordering, arbitrary messages of the Byzantine members, arbitrary quarantine sets) of a cluster whose quorums share more nodes than are Byzantine, two honest ledgers hold blocks with equal hashes at every common index |
| Cluster.LedgersAreChains | core/consensus_node.py:567-717 | Every reachable honest ledger is a genesis-rooted hash chain extending the common start; outside a commit height = length and prev = last hash; no pending commit can hit the continuity raise |
| Cluster.LedgersArePrefixes | core/consensus_node.py:684-717 | Of two honest ledgers one is a prefix of the other, if the hash does not collide on their blocks |
| Cluster.CertificatesAgree | core/consensus_node.py:675-683 | Two quorum-backed hashes at one height are equal |
| Cluster.QuorumsIntersect | core/consensus_node.py:385-388 | Any two quorums of a 3f+1 cluster share an honest node |
| Cluster.QuorumRuleSafeIff | core/consensus_node.py:385-388 | For n > 0, quorums always meet outside every tolerable fault set if and only if n mod 3 = 1 |
| Cluster.PreparesCertify | core/consensus_node.py:675-683 | A counted prepare quorum means that a quorum's honest members voted for this block |
| Cluster.CommitsCertify | core/consensus_node.py:657-673 | A commit quorum, although it counts the node itself, implies a prepare certificate held by an honest sender |
| Cluster.NewSentOk | core/consensus_node.py:761-785 | After any event every message an honest node has sent is backed: a PREPARE by its own vote, a COMMIT by a certificate |
| Cluster.ApplyKeepsInv | core/consensus_node.py:465-486 | One event at one node keeps the invariant of the whole cluster |
| Cluster.ReachableInv | core/consensus_node.py:465-486 | The cluster invariant holds after every sequence of events |
| ConsensusNode.VoteUnique | core/consensus_node.py:567-590 | A node binds itself to at most one hash per height |
| ConsensusNode.IdleHead | core/consensus_node.py:684-717 | With no commit in progress, height = ledger length and prev = tail hash |
| ConsensusNode.ContinuityHolds | core/consensus_node.py:684-697 | The "Commit continuity mismatch" guard is false for every commit a node has pending |
| ConsensusNode.LeaderRotates | core/consensus_node.py:379-383 | The leader of a height is the peer with height modulo their number of the peers that are not quarantined before it; the node itself if there is none |
| ConsensusNode.AcceptProposalKeeps | core/consensus_node.py:567-590 | Binding to a proposal under the lock keeps the node invariant and all earlier votes |
| ConsensusNode.ReceiveProposalKeeps | core/consensus_node.py:542-566 | So does every outcome of receiving a proposal, quarantine included |
| ConsensusNode.ReceivePrepareKeeps | core/consensus_node.py:636-655 | So does a PREPARE |
| ConsensusNode.ReceiveCommitKeeps | core/consensus_node.py:657-673 | So does a COMMIT |
| ConsensusNode.ProposeKeeps | core/consensus_node.py:390-421 | So does proposing a freshly sealed block |
| ConsensusNode.CommitPoint | core/consensus_node.py:684-698 | Past the commit point exactly one coroutine is finishing, so an index is appended once |
| ConsensusNode.AppendKeeps | core/consensus_node.py:699-699 | The append extends the chain by the voted block and keeps every vote |
| ConsensusNode.AdvanceKeeps | core/consensus_node.py:710-713 | Advancing the height keeps the invariant and turns the proposal vote into a ledger vote |
| ConsensusNode.Advances | core/consensus_node.py:710-713 | Afterwards height = ledger length, prev = tail hash, and there is no proposal, no vote and no commit in progress; the ledger is unchanged |
| ConsensusNode.RunTaskKeeps | core/consensus_node.py:542-717 | Resuming any suspended coroutine keeps the invariant and every vote |
| Divergence.SideCommits | core/consensus_node.py:390-717 | Honest nodes behind one ledger that form a quorum together with some Byzantine ones can, by lawful steps and while all others stand still, bring any payload of any of them into all their ledgers, and then stand ready for the next height |
| Divergence.SideRecords | core/consensus_node.py:390-717 | The same for any list of payloads: the ledgers of the group grow by exactly these payloads, in this order, and stay a hash chain |
| Divergence.HonestRecord | core/consensus_node.py:390-717 | If the honest nodes are a quorum by themselves, some lawful run from the start brings exactly the given payloads in their order into every honest ledger |
| Divergence.CommitsJoin | core/consensus_node.py:657-713 | A node that has bound itself to a block and hears no PREPARE appends it and moves to the next height when the COMMITs of others make a quorum together with itself |
| Divergence.AgreementIff | core/consensus_node.py:379-388 | For any peers, Byzantine members and common start, where the honest nodes run for one token and the hash tells two payloads apart: all runs agree if and only if at most one peer is honest or two quorums share more nodes than are Byzantine; otherwise a run in which only own-view leaders propose and quarantine is respected ends with two honest ledgers that differ at one index |
| Divergence.SizeAgreesIff | core/consensus_node.py:379-388 | For every n > 0: all runs of all clusters of n distinct peers with at most (n-1)/3 Byzantine members agree if and only if n mod 3 = 1 |
| ConsensusService.BftConsensusNode.constructor | core/consensus_node.py:263-273 | A node hydrated from a chain starts valid at that chain's head |
| ConsensusService.BftConsensusNode.HandleProposeBlock | core/consensus_node.py:542-566 | Quarantines exactly the sender of a malformed proposal, of a leader's proposal that fails a check, or of another peer's proposal off the local head; takes up exactly a leader's proposal that passes; is the receive step and keeps the node valid |
| ConsensusService.BftConsensusNode.BindProposal | core/consensus_node.py:567-590 | Off the head or against another proposal the sender is quarantined and nothing is bound; otherwise the node is bound, has prepared and announces; is the accept step and keeps the node valid |
| ConsensusService.BftConsensusNode.HandlePrepare | core/consensus_node.py:636-655 | A vote for the bound block is counted, a vote for another block quarantines its sender; is the prepare step and keeps the node valid |
| ConsensusService.BftConsensusNode.HandleCommit | core/consensus_node.py:657-673 | Counts sender and self, and starts the commit exactly from a quorum on; is the commit step and keeps the node valid |
| ConsensusService.BftConsensusNode.ProposeAfterGrace | core/consensus_node.py:390-421 | Exactly the propose step; stays valid |
| ConsensusService.BftConsensusNode.StartGossip | core/consensus_node.py:761-778 | Gossips the bound block unless it is committed; is the locked read of the gossip loop and keeps the node valid |
| ConsensusService.BftConsensusNode.SendVotes | core/consensus_node.py:403-406 | Broadcasts exactly the votes of the coroutine, for a block the node has voted for; stays valid |
| ConsensusService.BftConsensusNode.CheckPrepares | core/consensus_node.py:675-683 | Exactly the prepare-quorum check; stays valid |
| ConsensusService.BftConsensusNode.BeginCommit | core/consensus_node.py:684-698 | Exactly the commit point; a valid node never raises the continuity mismatch and stays valid |
| ConsensusService.BftConsensusNode.AppendLedger | core/consensus_node.py:699-699 | Exactly the append; the ledger stays a chain of voted blocks |
| ConsensusService.BftConsensusNode.FinishCommit | core/consensus_node.py:710-713 | Index = ledger length, prev = tail hash, no proposal, no votes, not committed; is the advance step and keeps the node valid |
| Ledger.Crypto.ExtendChain | core/proof_ledger.py:100-127 | A consistent block with the next index and the tail hash extends a hash chain |
| Ledger.Crypto.SealWellFormed | core/fork_resolver.py:161-186 | A sealed block passes the schema check, its 8-digit signature included |
| ProofLedger.VerifyLedgerBlocks | core/proof_ledger.py:149-182 | The verifier's loop accepts exactly the genesis-rooted hash chains |
| ProofLedger.HydrateSound | core/consensus_node.py:144-167 | Tail hydration of the consensus node on a sound file gives its length and last hash |
| ProofLedger.HydrateChained | core/proof_ledger.py:76-98 | The writer's tail scan, which trusts any object with an integer index and a 64-character hash, finds length and last hash of a verified file |
| ProofLedger.SoundIsChained | core/proof_ledger.py:149-182 | A file that passes the resolver's audit passes the verifier, so appending may follow a repair |
| ProofLedger.AppendSound | core/proof_ledger.py:100-127 | A fitting record keeps a file sound and becomes its tail |
| ProofLedger.ScanTail | core/proof_ledger.py:84-98 | The backward loop finds the last line that is an object with an integer index and a 64-character hash, or reports an empty file |
| ProofLedger.ProofLedgerManager.constructor | core/proof_ledger.py:66-98 | Index and previous hash are the hydrated tail; on a verified file the manager is valid |
| ProofLedger.ProofLedgerManager.AppendBlock | core/proof_ledger.py:100-127 | Every append, for any payload, timestamp and token, adds exactly the sealed block and keeps the file verified; with timestamp and token it also keeps it sound for the resolver |
| Chains.KeyTotal | core/fork_resolver.py:248-255 | Tip keys are totally ordered |
| Common.StringLessIff | core/fork_resolver.py:248-255 | Strings compare by the first place where they differ, a proper prefix first |
| Chains.FrameKindNames | core/fork_resolver.py:129-141 | A payload is named by the event text inside a governance event, by any other non-empty kind text, or, without one, by its non-empty event text; UNKNOWN otherwise |
| Chains.QuorumPayloadIff | core/fork_resolver.py:129-141 | The payloads that show a quorum are those with that kind, a governance event around that event, or that event and no kind |
| Chains.QuorumSeenIff | core/fork_resolver.py:283-335 | The incremental flag of a chain is set exactly when it holds such a block at or after the fork |
| Chains.BestIff | core/fork_resolver.py:248-255 | The best chain is the one before which no other comes: longer, or alone with a quorum, or with the greater tip signature, or the greater tip hash |
| Chains.TipDeterminesChain | core/fork_resolver.py:337-349 | Equal length and equal tip hash mean equal chains |
| Chains.BestUnique | core/fork_resolver.py:248-337 | At most one chain of a pool is best |
| Chains.ForkPointPermute | core/fork_resolver.py:227-236 | Reordering the blocks keeps the fork point |
| BestChain.DetectForkPoint | core/fork_resolver.py:227-236 | The loop finds the least index at which an (index, prev_hash) occurs twice, or none |
| BestChain.FillTable | core/fork_resolver.py:265-319 | Every row has length = index + 1, a true parent link and the quorum flag of its chain; no reachable block is missing |
| BestChain.Reconstruct | core/fork_resolver.py:339-347 | Walking the parents gives the chain that the row stands for |
| BestChain.ChainToOk | core/fork_resolver.py:284-319 | The incremental quorum flag of a row equals "quorum seen at or after the fork" on its whole chain, and that chain is genesis-rooted and linked |
| BestChain.RowOfChain | core/fork_resolver.py:265-319 | Every valid chain of the input, however chosen, has a row of the same length and key |
| BestChain.BestTipIsBest | core/fork_resolver.py:321-337 | The maximal tip's chain is at least as long as every valid chain and has the greatest key |
| BestChain.BestChain | core/fork_resolver.py:258-354 | The result is a genesis-rooted linked chain of input blocks; none is longer; without collisions it comes before every chain of the pool, a quorum at or after the fork deciding among the longest, then tip signature, then tip hash; it is among the candidates, which are all valid and of maximal length |
| ForkResolver.AuditOrRaise | core/fork_resolver.py:447-483 | The audit accepts exactly the sound files |
| ForkResolver.ValidBlocks | core/fork_resolver.py:211-224 | The pool is the self-consistent blocks in file order |
| ForkResolver.OrderIndependent | core/fork_resolver.py:227-348 | Any reordering of the lines, repeated lines included, leaves the chosen blocks unchanged |
| ForkResolver.LinearIdentity | core/fork_resolver.py:258-354 | On a ledger that is one chain the only longest chain, hence the choice, is that chain |
| ForkResolver.ReplayStepLoop | core/replay.py:196-234 | Replay succeeds exactly on hash chains and yields, in order, one frame per object payload with the text that names it |
| ForkResolver.ReplayShowsQuorum | core/fork_resolver.py:571-616 | Replay frames show a quorum at or after the fork exactly when the chain's quorum flag is set |
| ForkResolver.ReplayKey | core/fork_resolver.py:579-604 | Evaluating a candidate by replay gives its tip key |
| ForkResolver.SelectByReplay | core/fork_resolver.py:571-616 | The replay selector returns a candidate with the greatest tip key |
| ForkResolver.ReplayAgrees | core/fork_resolver.py:337-354 | A chain whose key reaches the best chain's key is the best chain |
| Reconciliation.ReplayChooses | core/fork_resolver.py:560-616 | Choosing among the candidates by replay selects the same block sequence as the dynamic program |
| Reconciliation.RewrittenSound | core/fork_resolver.py:391-402 | The rewritten file is the chosen chain plus the reconciliation block, and passes the audit |
| Reconciliation.OrphanedOnce | core/fork_resolver.py:357-388 | A line is orphaned once, or not at all when it claims a chosen hash |
| Reconciliation.DataKept | core/fork_resolver.py:357-388 | Every self-consistent block is in the new ledger or the orphan file |
| Reconciliation.ResolvableIff | core/fork_resolver.py:493-529 | A file can be reconciled if and only if it holds a self-consistent genesis block |
| Reconciliation.LedgerForkAuditor.WriteOrphaned | core/fork_resolver.py:357-388 | The loop appends exactly the orphans and counts them |
| Reconciliation.LedgerForkAuditor.ChooseChain | core/fork_resolver.py:560-569 | With or without replay the choice is a longest chain, without collisions the selected one, which comes before every other, and empty only when there is no valid chain |
| Reconciliation.LedgerForkAuditor.ResolveFork | core/fork_resolver.py:493-558 | It fails exactly when no chain exists and then changes nothing; otherwise the file is the sound rewriting, the chosen blocks and one that names tip, counts and fork point, and the orphan file grew by exactly the orphans |
| Reconciliation.LedgerForkAuditor.RecoverLoop | core/fork_resolver.py:652-666 | A sound file is left alone, so a second call is a no-op; success always leaves a sound file |
| Workspace.WorkspaceTransaction.Open | core/transaction_manager.py:330-374 | Every r/w/a/x open in a transaction reads, replaces, extends or refuses the visible file as on the live tree, which stays as it was |
| Workspace.WorkspaceTransaction.RunAll | core/transaction_manager.py:330-374 | The same for any sequence of opens |
| Workspace.WorkspaceTransaction.Commit | core/transaction_manager.py:388-431 | The live tree becomes the visible tree; a finalized transaction changes nothing |
| Workspace.WorkspaceTransaction.Rollback | core/transaction_manager.py:433-454 | The live tree is untouched and the staged files are gone |
| Workspace.WorkspaceTransaction.RegisterTouch | core/transaction_manager.py:326-328 | Exactly the path is added to the manifest |
| Isolation.LockRegistry.TryAcquire | core/transaction_manager.py:78-84 | Succeeds exactly when no other owner holds the path |
| Isolation.LockRegistry.ReleaseAll | core/transaction_manager.py:86-90 | Releases exactly the owner's paths |
| Isolation.LockRegistry.IsLockedByOther | core/transaction_manager.py:92-99 | True exactly when acquiring would fail; without an owner, when the path is locked at all |
| Isolation.DirectRunFrame | core/transaction_manager.py:330-374 | Files at paths that are not written change nothing but the reads of these paths |
| Isolation.CommittedWritesAreSerial | core/transaction_manager.py:291-431 | Under any interleaving of transactions the live tree, and the outcome of every write open and of every read behind a write open of its path, equals running the committed transactions one after the other |
| Isolation.ExitReleases | core/transaction_manager.py:233-313 | An open is refused while another transaction holds the path and granted once that one has exited |
| Isolation.SerialIff | core/transaction_manager.py:330-374 | In every run all opens of a transaction, reads included, return what they would return on the live tree at its commit if and only if each read comes after a write open of its path |
| Isolation.BareReadIsStale | core/transaction_manager.py:346-354 | For every program with a read before any write open of its path, another transaction can write the path right behind that read and commit, so that the read is stale at the commit |
| Isolation.StagedPathsDisjoint | core/transaction_manager.py:73-99 | Two open transactions never stage the same path |
| CrashRecovery.StepKeeps | core/transaction_manager.py:388-592 | Unless a checkpoint is recorded while an earlier directory is left, one step of a stage, of a commit, of recovery, or a crash changes the tree that recovery would restore only by a recorded checkpoint, and then by that stage's files |
| CrashRecovery.RunKeeps | core/handshake.py:418-435 | After any run with crashes, also during recovery, that records no checkpoint while an earlier stage's directory is left, recovery would restore exactly the recorded stages |
| CrashRecovery.ReliableIsClean | core/recovery.py:225-271 | If recording never fails every run is of that kind |
| CrashRecovery.CleanRunsAreAtomic | core/handshake.py:418-435 | Such a run comes to rest with exactly the recorded stages, each with all its files, even if recording fails now and then |
| CrashRecovery.CrashAtomicIff | core/handshake.py:418-435 | Over every run with crashes each stage leaves all its files or none if and only if there is a checkpoint manager and recording does not fail; the same condition decides whether exactly the finished stages survive |
| CrashRecovery.TornCommit | core/handshake.py:434-435 | Without a checkpoint manager a run comes to rest with one of a stage's two files, a tree that no choice of stages gives |
| CrashRecovery.StaleStageReturns | core/transaction_manager.py:563-585 | After a failed `record_stage` a run comes to rest with a file of the lost stage over that of the later, recorded one |
| CrashRecovery.StageCompletes | core/handshake.py:418-435 | From rest the next stage can publish any files, is recorded if there is a manager, and leaves the staging area empty |
| CrashRecovery.PipelineCompletes | core/recovery.py:300-304 | With a crash and a restart after each of three stages a run can end with the files of all three live in their order, nothing staged and no checkpoint |
| CrashRecovery.AppendCopies | core/transaction_manager.py:366-373 | An append starts from a copy of the live file, and the stage is not over before the manifest lists it |
| CrashRecovery.RollbackDrops | core/transaction_manager.py:433-454 | A stage that is rolled back leaves live files and checkpoint alone and no directory |
| CrashRecovery.StagingArea.RecoverCommitFromManifest | core/transaction_manager.py:495-535 | Every vouched file becomes live, none is left, other stages are untouched |
| CrashRecovery.PublishRecovers | core/transaction_manager.py:563-585 | Without directories of earlier stages the order of the scan does not matter and the tree is the promised one |
| CrashRecovery.StagingArea.CleanupWorkspaceStaging | core/transaction_manager.py:545-592 | Every directory is finished once: those up to the checkpoint are published in the order of the scan, later ones dropped, and the staging area is empty |
| PipelineRuns.ResumeEquivalence | core/handshake.py:235-648 | After any crashes, lost checkpoint writes, resumes and interleavings, a result is the sequential run's result, and an exception means that the sequential run raises |
| PipelineRuns.AnswerIff | core/handshake.py:366-616 | The sequential run returns r exactly if there are three envelopes, each the answer of its agent to the one before, conforming to its schema, signed, approved by the quorum and marked with its stage and role, and the build of the last gives r |
| PipelineRuns.CrashAndResume | core/handshake.py:308-362 | A crash with a checkpoint, a resume and any schedule of at most 21 turns give the uninterrupted outcome for the checkpoint's correlation id; until then some turn is possible |
| PipelineRuns.NeverDeadlocks | core/handshake.py:269-271 | In every reachable live state, fresh or resumed, some coroutine can run |
| PipelineRuns.SomeoneReady | core/handshake.py:366-635 | In a network with one envelope and one STOP behind it, an unfinished coroutine is not blocked |
| PipelineRuns.TurnFlows | core/handshake.py:366-635 | Every turn keeps that flow and strictly decreases the remaining work |
| PipelineRuns.TurnsEnd | core/handshake.py:629-648 | A crash-free run takes boundedly many turns and keeps its correlation id |
| PipelineRuns.BuildNeverStopped | core/handshake.py:599-616 | The build coroutine never sees STOP before an envelope |
| PipelineRuns.GenuineValid | core/handshake.py:165-195 | An envelope that the sequential run hands on passes `validate_envelope`, resumed or not |
| PipelineRuns.DraftedApproved | core/handshake.py:308-339 | Re-validating a checkpointed draft approves exactly what the sequential run hands on, so a quorum-halt checkpoint cannot be resumed past the halt |
| PipelineRuns.NextKeeps | core/handshake.py:308-648 | Every event keeps the envelopes, the result and the checkpoint true to the sequential run |
| PipelineRuns.BuildClears | core/handshake.py:599-615 | A build that returns leaves no checkpoint if clearing succeeds, and the old one otherwise; a build that raises leaves it |
| PipelineRuns.ClearedForGood | core/handshake.py:599-648 | From a finished build with the file cleared on, the remaining turns record nothing and the group does not raise |
| PipelineRuns.StaysCleared | core/recovery.py:300-304 | From a cleared file on, over any events, nothing can be resumed until a stage records |
| PipelineRuns.AnswerIgnoresId | core/handshake.py:132-163 | If agents and validators ignore the correlation id, every restart gives one and the same result |
| PipelineService.CheckpointManager.RecordStage | core/recovery.py:225-271 | Succeeds exactly when schema, signature and file write succeed; a failure leaves the file, a success makes `load` return this envelope |
| PipelineService.CheckpointManager.Clear | core/recovery.py:300-304 | Afterwards `load` finds nothing |
| PipelineService.LoadIff | core/recovery.py:174-223 | Exactly a complete version 1 checkpoint of this token with known stage and state is restored, and exactly one of another token counts as none |
| PipelineService.TaskGroup.constructor | core/handshake.py:629-633 | A fresh task group starts in the fresh network |
| PipelineService.TaskGroup.Resume | core/handshake.py:308-362 | A resumed one starts with the checkpointed envelope in its queue and a STOP behind it, or has raised when the quorum dissents |
| PipelineService.TaskGroup.ReceiveTurn | core/handshake.py:440-446 | Taking STOP or an envelope off the queue, or raising, as the network's receive step |
| PipelineService.TaskGroup.WorkTurn | core/handshake.py:374-386 | The agent's answer becomes a draft with the input's correlation id, or the group raises |
| PipelineService.TaskGroup.JudgeTurn | core/handshake.py:389-435 | A hand-off and a quorum halt both record the draft; only the hand-off goes on |
| PipelineService.TaskGroup.SendTurn | core/handshake.py:436-437 | Putting an envelope or STOP, as the network's send step |
| PipelineService.TaskGroup.BuildTurn | core/handshake.py:599-615 | The build takes the envelope and runs; a finished build with a successful clear leaves no checkpoint, and in every other case the checkpoint is as it was |
| PipelineService.TaskGroup.Advance | core/handshake.py:629-648 | A turn, whichever coroutine takes it, keeps the group true to the sequential run and strictly shortens what is left; after the build none touches the checkpoint |
| PipelineService.TaskGroup.RunToEnd | core/handshake.py:629-648 | For every scheduling preference, clock and pattern of failed checkpoint writes the group ends, with the sequential result or failure, and without a checkpoint if it returns and the clear at the tick of the build succeeded |
| DagSemantics.ManifestDetermined | core/dag_engine.py:179-204 | The manifest depends only on the results of the dependencies and on the values that are passed |
| DagSemantics.ManifestBuilt | core/dag_engine.py:179-204 | A manifest holds the own agent, arguments and workspace hashes of the node, the fingerprints of its dependencies in order, its own keyword arguments, and over them for each reference the value of that node, for several the list, null for a node without result |
| DagSemantics.BuiltOnce | core/dag_engine.py:179-204 | These facts determine the manifest |
| DagSemantics.EvalBuilt | core/dag_engine.py:296-309 | Recursive evaluation calls each node with the manifest built in this way from the evaluated nodes before it |
| DagSemantics.IntendedFromResults | core/dag_engine.py:296-309 | Built when all nodes before are evaluated and none behind is done, it is the intended manifest |
| DagSemantics.StoreKeepsSound | core/cache.py:240-281 | Storing a computed value keeps the cache sound |
| DagEngine.FinishedNodesAreRight | core/dag_engine.py:416-502 | For every interleaving and every sound cache, a finished node holds what recursive evaluation gives |
| DagEngine.FinishedFromResults | core/dag_engine.py:416-502 | In every run a finished node holds what its function returns, and the hash, for the manifest that its own fields and the results held by the nodes before it make up |
| DagEngine.ClaimBuilds | core/dag_engine.py:438-446 | A task that claims its node goes on with the manifest built from the results of that moment |
| DagEngine.PrefetchPublishes | core/dag_engine.py:249-294 | A prefetch of a pending node with its dependencies done and its value cached publishes that value |
| DagEngine.ResultsIndependent | core/dag_engine.py:249-434 | Two complete runs, whatever their schedules, prefetches and caches, have the same results |
| DagEngine.SchedulerSafety | core/dag_engine.py:356-414 | `remaining[c]` is the number of unprocessed dependency entries; `ready` has no repetition and nothing already tasked; a tasked node's dependencies are done |
| DagEngine.EntersReadyOnce | core/dag_engine.py:356-414 | Over a whole run each node comes into `ready` at most once, prefetched or not |
| DagEngine.NeverReadyAgain | core/dag_engine.py:356-414 | A node that waits for nothing and has left `ready` is never in it again, whatever happens later |
| DagEngine.SchedulerProgress | core/dag_engine.py:376-414 | While nodes are unprocessed and no node function has raised, one is ready, in flight or waiting to be processed |
| DagEngine.ProcessDoneKeeps | core/dag_engine.py:366-373 | Processing a node keeps every counter exact, `ready` free of repetitions, and every node whose counter is zero in `ready` or already past it |
| DagEngine.BuiltAsIntended | core/dag_engine.py:416-440 | A pending node claimed with its dependencies done computes on the intended manifest: all nodes before it are done, none behind it is |
| DagEngine.JobKeeps | core/dag_engine.py:416-502 | Every step of a node's task keeps the invariant |
| DagEngine.CancelKeeps | core/dag_engine.py:485-489 | Cancelling a task after another has raised keeps the invariant |
| DagEngine.FailureMarks | core/dag_engine.py:485-489 | A raising node function fails its node and stops the group; a task cancelled then fails its node exactly inside the `try` |
| DagEngine.FinishPeekKeeps | core/dag_engine.py:249-294 | A racing prefetch publishes only the right value and only for a pending node |
| DagEngine.RunOk | core/dag_engine.py:356-502 | The invariant holds after every sequence of events |
| DagTiming.RunSet | core/dag_engine.py:356-502 | Any set of nodes closed under dependencies can be run to its end while all other nodes wait |
| DagTiming.UnorderedShows | core/dag_engine.py:296-309 | If a node is passed the value of a node neither before nor behind it, some node functions give two complete runs with different results |
| DagTiming.TimingFreeIff | core/dag_engine.py:296-309 | All complete runs agree, whatever the nodes compute, if and only if every value passed is that of a node before or behind the receiver, or its own |
| DagService.WorkspaceDagEngine.AddNode | core/dag_engine.py:151-157 | Refuses a known id; otherwise the dependents table stays the exact inverse of `depends_on`, multiplicities included |
| DagService.Scheduler.constructor | core/dag_engine.py:356-360 | Counters are dependency counts and exactly the roots are ready |
| DagService.Scheduler.Process | core/dag_engine.py:366-373 | The scheduler's bookkeeping of a finished node, loop over dependents included, is the scheduler step |
| DagService.WorkspaceCacheEngine.RunStage | core/cache.py:135-281 | Hit or miss, the outcome is the node function's; a miss stores it and clears the later stages of this transaction only; an exception stores nothing |
| Sorting.SortPermutes | core/rollup.py:135-135 | Sorting keeps the multiset |
| Sorting.SortedUnique | core/rollup.py:135-135 | Two sorted orders of one tie-free multiset are equal |
| Sorting.SortStable | core/rollup.py:135-135 | Sorting keeps the order of elements that tie |
| Sorting.SortSameIff | core/rollup.py:135-135 | Two lists are sorted into the same list if and only if they hold tied elements in the same order |
| Merkle.ParentLevel | core/rollup.py:146-149 | The pairing loop computes the parent level |
| Merkle.RootOfLevel | core/rollup.py:142-150 | The level loop with its duplicate-last rule computes the root |
| Merkle.RootIsTree | core/rollup.py:142-150 | Hashing level by level gives the tree described from its root downwards: the left half holds the first 2^(d-1) leaves, and a right half without leaves repeats the left one |
| Merkle.RootBinds | core/rollup.py:142-150 | For equal counts, equal roots force equal leaves |
| Merkle.CountsBindIff | core/rollup.py:142-150 | For counts m, n > 0: no list of m leaves shares its root with a different list of n leaves if and only if m = n or the trees differ in depth |
| Rollup.MerkleRootFromTransactions | core/rollup.py:107-150 | The loop form computes the root of the sorted leaves |
| Rollup.MerkleRootIsTree | core/rollup.py:107-150 | The root is that of the tree over the tagged leaves of the records in ascending order of the key |
| Rollup.MicrosTruncates | core/rollup.py:125-133 | Durations enter the key in whole microseconds, truncated toward zero |
| Rollup.FineTiesIff | core/rollup.py:125-133 | Two records tie exactly if they agree in id, event, bytes and both durations up to fractions of a microsecond |
| Rollup.FineAscends | core/rollup.py:125-133 | The key ascends by id, event, bytes, wall time, processor time |
| Rollup.MerkleBinds | core/rollup.py:107-150 | For equal counts, equal roots mean equal multisets of transactions |
| Rollup.RootsBindIff | core/rollup.py:107-150 | For any counts, zero included: roots of m and of n transactions never agree for different multisets if and only if m = n, one of them is 0, or the depths differ |
| Rollup.OrderFreeIff | core/rollup.py:125-135 | The root of a batch is the same for every arrival order if and only if no two different transactions of it tie |
| Rollup.AcceptedPayloadBinds | core/rollup.py:233-333 | Two peers that accept one payload hold the same multiset of transactions in its range and the same previous root |
| Rollup.InRangeSlice | core/rollup.py:189-230 | Checking a range of a sequenced journal looks at exactly that slice |
| Rollup.InRangeSelects | core/rollup.py:189-230 | The records looked at are those with a positive sequence number in the range, a correlation id and an event, each as often as it occurs |
| Rollup.OwnBatchAcceptedIff | core/rollup.py:474-546 | A payload built from the engine's own slice is accepted against its journal if and only if every record has a correlation id and an event |
| Rollup.ShortRangeRejected | core/rollup.py:274-285 | A journal that shows a different number of records refuses the payload |
| RollupPeers.PeerAcceptsIff | core/rollup.py:233-333 | A peer accepts a payload if and only if it expects the same previous root and its records in the range are the same, those that tie in the same order |
| RollupPeers.AnyOrderAcceptedIff | core/rollup.py:233-333 | A legible batch is accepted by every peer that holds its transactions in whatever order if and only if no two different ones tie |
| RollupPeers.AcceptedIff | core/rollup.py:233-333 | For every payload, however it was made: it is accepted if and only if kind, algorithm, bounds, count, previous root, Merkle root, mask bits, token of the summed times and bytes, target root and each field of the proof are the ones that the records in its range determine |
| RollupPeers.AcceptedOnce | core/rollup.py:233-333 | Two payloads with equal bounds that one journal accepts on one previous root are equal |
| RollupPeers.BuiltCommits | core/rollup.py:474-546 | What the engine builds from a batch commits to it in every field |
| RollupEngine.BatchIsInterval | core/rollup.py:427-472 | Batch k is exactly the interval of sequence numbers after batch k-1 |
| RollupEngine.Detach | core/rollup.py:446-458 | Detaching a prefix of the pending list keeps the partition |
| RollupEngine.DetachedBatchAccepted | core/rollup.py:474-546 | Each detached batch's payload verifies against the journal, also after later ingests, exactly when its records are legible |
| RollupEngine.WorkspaceRollupEngine.SetBatchSize | core/rollup.py:365-371 | Refuses non-positive sizes and keeps the partition |
| RollupEngine.WorkspaceRollupEngine.IngestTransaction | core/rollup.py:399-425 | Takes the next sequence number and appends to journal and pending list |
| RollupEngine.WorkspaceRollupEngine.RegisterWaiter | core/rollup.py:427-458 | Detaches exactly one batch when both lists are full enough; what is left plus the batch is what was pending |
| RollupEngine.WorkspaceRollupEngine.Flush | core/rollup.py:460-472 | Detaches everything pending, or nothing |
| RollupEngine.WorkspaceRollupEngine.FlushBatch | core/rollup.py:474-546 | The payload's range is the batch's interval, each of its fields is the one the batch determines, and it verifies exactly when the batch is legible |
| RollupEngine.SeqBounds | core/rollup.py:481-482 | The loop finds least and greatest sequence number |
| WebSocket.FrameRoundTrip | core/mcp_bridge.py:72-113 | Reading a made frame gives its opcode and payload and leaves the bytes behind it |
| WebSocket.MaskedRoundTrip | core/mcp_bridge.py:93-113 | So does a frame under any 4-byte masking key (sections 5.2 and 5.3 of RFC 6455) |
| WebSocket.BigEndianRoundTrip | core/mcp_bridge.py:72-83 | Length bytes are read back as the length |
| WebSocket.FirstByteWeighs | core/mcp_bridge.py:72-83 | The first of several length bytes weighs most |
| WebSocket.FrameableIff | core/mcp_bridge.py:72-83 | Exactly five opcodes, and lengths below 2^64, can be framed |
| WebSocket.FrameLayout | core/mcp_bridge.py:72-83 | A frame is FIN and opcode, the length in the shortest of its three forms, and the payload (section 5.2 of RFC 6455) |
| WebSocket.ReadIs | core/mcp_bridge.py:93-113 | Any bytes with a complete header, key and body are read as that frame, or refused exactly if the FIN bit is not set |
| WebSocket.MaskedAt | core/mcp_bridge.py:107-113 | Byte i of the payload is combined with byte i mod 4 of the key, bit by bit (section 5.3 of RFC 6455) |
| WebSocket.MaskTwice | core/mcp_bridge.py:107-113 | Masking twice with one key is the identity |
| WebSocket.StreamReader.ReadExact | core/mcp_bridge.py:86-90 | Returns exactly n bytes and leaves the rest, or fails |
| WebSocket.StreamReader.ReadWsFrame | core/mcp_bridge.py:93-113 | The stepwise reader computes the frame function and consumes exactly its bytes |
| WebSocket.StreamReader.ReadAll | core/mcp_bridge.py:93-113 | A concatenation of frames, masked or not, is read back message by message and the remaining bytes are left |
| Fnv.Fnv1a32 | core/hashutil.py:6-10 | The loop computes the digest function |
| Fnv.TestVectors | core/hashutil.py:6-10 | The digests of the empty text and of "a" are the published ones |
| Fnv.StepInjective | core/hashutil.py:7-9 | One step is injective in the state and in the byte |
| Fnv.SingleByteChangeDetected | core/hashutil.py:6-10 | Equal-length byte strings that differ in exactly one byte have different digests |
| Fnv.DigestShape | core/hashutil.py:10-10 | A digest is eight lower-case hexadecimal digits that read back as the state |
| Fnv.HexRoundTrip | core/hashutil.py:10-10 | Formatting in fixed width loses nothing |
| Bits.XorInvolutive | core/hashutil.py:8-8 | Exclusive or with one mask twice is the identity |
| Bits.XorBits | core/hashutil.py:8-8 | Each bit of an exclusive or is set exactly when the two bits differ |

## Left out

- Sockets, dialling, reconnects, HELLO handshakes and partitions of the consensus network: the message set is abstract, authenticated and lossy.
- Which pending candidate a leader proposes, the proposal grace period, waiters and whether `submit_payload` ever resolves: any payload may be proposed at any time, which allows more runs than the code.
- Restarts of consensus nodes: honest nodes hydrate once from a common ledger.
- The rollup check inside `_verify_pre_prepare` enters the consensus model as an arbitrary verdict; `Rollup` models the check itself.
- Text-level JSON, line splitting, temporary files, fsync and I/O errors other than a failed `record_stage`: files are sequences of parsed records, replaced or extended atomically.
- ProofLedger.VerifyLedgerBlocks: takes blocks; an object that lacks a block field is not one, so hashing a header with missing fields is not modelled.
- SHA-256 internals, timestamps and uuids: parameters.
- BestChain.FindParent: any parent row that matches index and hash is returned; the tie-break between rows of equal hash differs only in line numbers.
- BestChain.Candidates: the order of equally long candidates is left open; every statement about them holds for any order.
- Staged deletes, `+` modes, directories, `flock` locks, several roots and `os.replace` failures in transactions: the workspace is a flat map from paths to contents.
- Isolation.CommittedWritesAreSerial: leaves out reads of a path that the transaction has not opened for writing; `Isolation.SerialIff` says why. An open that meets another transaction's lock raises and is not logged. Staged files that a transaction leaves unpublished are dropped from the model when it exits, although their directory stays until the next cleanup.
- A quorum-halt checkpoint records a stage that was not committed; the crash model leaves it out, the pipeline model includes it.
- Pipeline agents see envelopes, not the workspace; their file effects are the subject of `CrashRecovery`. Agents and validators are deterministic and ignore `created_at`. A stage timeout is a crash of the run.
- `resolve_intervention`, governance states beyond their names, and the older `HandshakePipeline` class.
- DAG graphs with cycles or unregistered names, which end in an error or not at all, changing workspace hashes, and node functions that are not deterministic.
- Corrupt cache objects, the cache's telemetry and its process sandbox.
- Floating-point rounding of durations (reals here) and the hexadecimal text of the correlation mask (a bit set here).
- Fragmented WebSocket frames are refused by the reader and not modelled further; the HTTP upgrade and JSON-RPC are not part of this model.
- `core/sandbox.py` and `core/telemetry.py` (process and thread choice, timing), governance logging and the schema checker: they call the operating system or only record what happened.
- `core/parsers.py` and the Markdown generators: pattern matching on text.
- The packages under `src/` (control plane, briefing, governance, dossiers, lifecycle, missions, memory graph): report generation, field checks, fixed tables and counting over JSON, with no state shared between calls.
- `packages/dashboard-3d` and the agents under `agents/`: a user interface and stubs.
