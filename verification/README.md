# xraft: a verified model of its elections, replication and storage

xraft is a pull-based Raft implementation. This project models its consensus
and storage logic in Dafny and proves what holds over whole runs of it.

- **Elections with durable votes** (`RaftSpec`, `RaftNode`, `ElectionRun`,
  `ElectionSafety`, `ElectionSteps`, `ElectionTheorems`, `ElectionShapes`,
  `ElectionExact`, `ElectionMajority`, `ElectionExamples`, `Quorum`). A cluster
  of voters over a network that loses, repeats and reorders packets. Saves of
  the quorum state may succeed, fail before writing or fail after writing;
  appends may be refused; a process may die between two appends or at any other
  point, and restarts from its stores. Proved: one leader per term, one granted
  vote per voter and term, the election restriction, exactly when the logs that
  elections write keep their shape, and that any majority that can be reached
  elects a candidate with a log no older.
- **Elections in the event loop** (`EventLoopSpec`, `EventLoop`,
  `EventLoopRun`, `EventLoopRestriction`, `EventLoopExact`,
  `EventLoopMajority`). The same handlers as batches of actions, without
  crashes, with check-quorum step-downs and pre-votes, and with any message
  injected except a granted vote nobody gave.
- **The follower's fetch pipeline** (`Replication`, `ReplicationNode`,
  `ReplicationRun`, `ReplicationSafety`, `ReplicationTheorems`,
  `ReplicationCheckpoints`, `ReplicationQuorum`, `ReplicationExact`,
  `ReplicationCatchUp`, `DeferredCompletion`, `LeaderEpochs`). Any sequence of
  responses, honest or not: nothing committed is lost, the application is told
  exactly the committed commands, the durable log mirrors memory, completions
  settle once; exactly what the leader-epoch checkpoint holds and exactly when
  the stored term, vote and leader are those in memory; and that a follower
  that keeps fetching ends with its leader's log.
- **The segmented log** (`LogSpec`, `Framing`, `Segment`, `SegmentViews`,
  `SegmentRecovery`, `SegmentLog`, `SegmentRuns`, `SortedKeys`). Many files of
  framed batches answer like one contiguous log, through restarts and through
  crashes after any byte of an append.
- **Supporting machines**: concurrent I/O groups (`IoStage`), membership beside
  the log (`Membership`), chunked snapshot transfer (`SnapshotTransfer`), and
  the two in-memory log stores (`MemoryLogs`).

Code that updates state in place is a class whose methods are proved equal to
a specification function of the old state. The run theorems are about those
functions: a run is any sequence of events, an event that cannot happen changes
nothing, and each theorem is stated for every sequence. The modules whose names
end in `Exact` say for every input what the functions decide, in terms of the
input and the outcome alone.

What the outside world decides is a parameter: storage outcomes, which commands
the state machine rejects, how groups interleave, which packets arrive and
when, when timers fire. Serialisation and the checksum are function values:
decoding gives back what was encoded, leaving entries out of a batch makes no
encoding longer, what a payload decodes to encodes to no more bytes than the
payload, and the checksum is any function with 32-bit values.

Four things one may expect of the code do not always hold. Each has a theorem
with the exact condition:

- The comment on term validation promises that a failed check leaves the node
  unchanged. That holds of the validation itself (`ValidateAndUpdateTerm`), but
  the handler around it can refuse a response after adopting its term or leader
  (`RefusedUnchangedExactly`, with an input in `RefusedButAdopted`).
- The stored term, vote and leader then lag behind memory, and stay behind while
  that term lasts (`MirrorsExactly`, `StoredMirrorsExactly`, `LagLasts`).
- After a rollback that failed, a repeated win attempt in the same term writes a
  second leader change (`WinShapeExactly`, `LogsWellShaped`, with a run in
  `SecondLeaderChange`), and the log a leader wins with is then longer than the
  one it asked with (`ElectionRestriction`).
- The segmented log accepts cuts outside its bounds and is then no longer valid
  (`TruncateSuffix`, `TruncatePrefix`); the two memory stores differ on a cut of
  the front before the start (`PrefixCutsAgree`).

`NodeState` lacks members that other files call (`become_follower`,
`become_candidate`, `become_leader`, `majority`, the in-memory log); they have
the meaning their callers and check-quorum tests give them: becoming follower
clears the vote, becoming leader keeps it.

## Model

| member | source | states |
|---|---|---|
| ReplicationTheorems.NothingCommittedIsLost | xraft-core/src/replication.rs:536-631 | Between any two points of any run of messages, honest or not, and parked clients: term and high watermark do not fall, every entry below the earlier high watermark is still there unchanged, and nothing applied, fired or dropped is forgotten |
| ReplicationTheorems.StepLater | xraft-core/src/replication.rs:542-580 | One event keeps the committed prefix and fails only completions at or above the high watermark |
| ReplicationTheorems.RunBounds | xraft-core/src/replication.rs:624-631 | In every run the high watermark stays between log start and log end |
| ReplicationTheorems.OneLeaderPerTerm | xraft-core/src/replication.rs:381-455 | In every run all responses that pass validation in one term come from one leader |
| ReplicationTheorems.AppliedExactly | xraft-core/src/replication.rs:672-745 | In every run what was applied is a prefix of the commands committed since the start; until a commit notification fails it is exactly those commands, in order and once each, the listener batches concatenate to the same list, and the voter set is that of the last committed voter record |
| ReplicationTheorems.DurableMirrorsMemory | xraft-core/src/replication.rs:582-596 | Replaying the emitted append and truncate actions gives the in-memory log after every message of every run, rejected ones included, until a commit notification fails |
| ReplicationCheckpoints.CheckpointExactly | xraft-core/src/replication.rs:566-576 | In every run until a commit notification fails, from any initial checkpoint, the checkpoint is exactly the initial one without what lay at or after a cut, overwritten by the leader changes committed since |
| ReplicationCheckpoints.CutsKeepCheckpoints | xraft-core/src/replication.rs:566-576 | After any such run, every leader change committed during the run is recorded and survives a further divergence answer, which drops exactly the checkpoints at or after its cut; whatever is not so recorded is an initial checkpoint |
| ReplicationCheckpoints.CheckpointMatchesScan | xraft-core/src/replication.rs:718-725 | A follower that starts with a scan of its committed prefix has one after such a run if and only if no two committed leader changes share a term |
| ReplicationCheckpoints.RestoredCheckpoint | xraft-storage/src/lib.rs:97-109 | A follower restored with the scan of its whole log has after such a run, below the high watermark, the scan of the committed prefix if and only if no leader change committed during the run repeats a term |
| ReplicationTheorems.CompletionsSettled | xraft-core/src/replication.rs:741-744 | When clients park at or above the high watermark, each ticket is pending, fired or dropped in total as often as it was parked; fired ones are for committed, applied offsets and in offset order over the whole run; none below the high watermark stays pending |
| ReplicationTheorems.DroppedUncommitted | xraft-core/src/replication.rs:578-580 | Every completion dropped by any event of any run was for an offset not committed then |
| ReplicationQuorum.RefusedUnchangedExactly | xraft-core/src/replication.rs:494-501 | A response refused without halting the node leaves the follower unchanged if and only if it was not adopted |
| ReplicationQuorum.AdoptsExactly | xraft-core/src/replication.rs:381-455 | Adopted means addressed to this cluster from the leader it names and bringing a later term, or a leader of the current term to a follower that knew none; those are exactly the responses whose validation asks for the quorum state to be stored |
| ReplicationQuorum.RefusedExactly | xraft-core/src/replication.rs:496-620 | An adopted response is refused if and only if it names both a snapshot and a divergence, cuts below the high watermark, does not continue the log, or would commit an entry the application cannot take |
| ReplicationQuorum.MirrorsExactly | xraft-core/src/replication.rs:646-653 | After a message the stored term, vote and leader equal those in memory if and only if they did before, or, for an adopted response, if and only if it was not refused |
| ReplicationQuorum.StoredMirrorsExactly | xraft-core/src/replication.rs:646-653 | In every run that starts in step, stored and in-memory term, vote and leader agree if and only if no response was adopted or the last adopted one was not refused |
| ReplicationQuorum.LagLasts | xraft-core/src/replication.rs:424-435 | Once an adopted response was refused, the store does not catch up while that term lasts |
| ReplicationQuorum.RefusedButAdopted | xraft-core/src/replication.rs:497-501 | A response of term 4 with both a snapshot and a divergence is refused and yet moves a follower of term 3 to term 4 in memory only |
| ReplicationExact.OutcomeExactly | xraft-core/src/replication.rs:80-119 | For every follower and message: it is accepted if and only if it is of this cluster, from the leader it names, of a later term or from the leader of the current term to a follower that follows it or none, and none of the listed guards refuses it |
| ReplicationExact.ReasonsExactly | xraft-core/src/replication.rs:80-119 | Wrong cluster, other payload and wrong sender are reported for exactly those messages |
| ReplicationExact.ResponseReasonsExactly | xraft-core/src/replication.rs:381-620 | Each of the seven reasons to reject a response is given for exactly the responses it is meant for |
| ReplicationExact.LeaderTaken | xraft-core/src/replication.rs:381-455 | A heard response, refused or not, leaves a follower of its sender in its term, without a vote if the term is new; any other message changes nothing |
| ReplicationExact.GrowsExactly | xraft-core/src/replication.rs:598-658 | An accepted response with entries leaves exactly the old log with them appended, the watermark at the larger of the old one and the smaller of the leader's and the log end, voters, checkpoint, pending change, application and completions as the newly committed entries say, and asks for exactly that append and quorum state to be written |
| ReplicationExact.HaltsExactly | xraft-core/src/replication.rs:685-727 | When a newly committed entry cannot be taken, the first such one is reported, exactly the entries before it take effect, and listener and completions are not told |
| ReplicationExact.CutsExactly | xraft-core/src/replication.rs:536-596 | An accepted divergence answer leaves exactly the entries before the smaller of its end and the log end, drops exactly the checkpoints and the pending change from there on, and asks its sender to go on from exactly there |
| ReplicationExact.CutDrops | xraft-core/src/replication.rs:578-580 | It drops exactly the completions at or after the cut |
| ReplicationExact.SnapshotExactly | xraft-core/src/replication.rs:506-534 | A snapshot answer starts one transfer from the first byte unless one is under way, and changes nothing else |
| ReplicationExact.FetchesExactly | xraft-core/src/replication.rs:300-323 | A node asks if and only if it follows a known leader, and asks that leader for what follows its own last entry |
| ReplicationCatchUp.CatchesUp | xraft-core/src/replication.rs:598-658 | A follower whose log is a front of its leader's, and whose requests are answered with pieces of any sizes that cover the rest, ends with the leader's log in memory and on disk, the leader's watermark, and every command up to it applied in order |
| ReplicationCatchUp.RejoinsAndCatchesUp | xraft-core/src/replication.rs:536-658 | So does any follower of this or an earlier term, with any uncommitted entries, once told where the two logs part |
| ReplicationTheorems.RunInv | xraft-core/src/replication.rs:480-658 | The combined invariant of log, application, completions, leaders and durable log holds after every run |
| ReplicationTheorems.RunData | xraft-core/src/replication.rs:480-658 | The part of it that does not concern completions holds whatever offsets clients park at |
| ReplicationTheorems.QueueBlind | xraft-core/src/replication.rs:480-658 | What a message does to node, application and actions does not depend on the parked completions |
| ReplicationTheorems.DeliverInv | xraft-core/src/replication.rs:80-119 | One message keeps the invariant, whichever of the rejections, the snapshot, divergence or append path it takes |
| ReplicationSafety.NotifySound | xraft-core/src/replication.rs:672-745 | A notification over a raised high watermark leaves application and voters as the committed entries say, no completion pending below it and every ticket accounted for; a failed one leaves a prefix applied and a halting error |
| ReplicationSafety.EntriesSound | xraft-core/src/replication.rs:598-658 | The append path keeps the data invariant, its batch replays to the new log, and an error that does not halt the node changes nothing |
| ReplicationSafety.CutSound | xraft-core/src/replication.rs:536-596 | The divergence path keeps the committed prefix and everything derived from it, and its batch replays to the cut log |
| ReplicationRun.AppliedEntries | xraft-core/src/replication.rs:681-727 | Applying entries gives exactly their commands, their last voters and their leader changes, or stops with a prefix at a halting error |
| ReplicationNode.FollowerNode.Receive | xraft-core/src/replication.rs:80-119 | Refuses other clusters, other payloads and sources that are not the named leader; otherwise state, queue, application and outcome are those of the pipeline specification |
| ReplicationNode.FollowerNode.Handle | xraft-core/src/replication.rs:480-658 | Validation, then snapshot, divergence or append, equal to the specification in state, actions and errors |
| ReplicationNode.FollowerNode.ValidateAndUpdateTerm | xraft-core/src/replication.rs:381-455 | Term adoption, leader discovery and each rejection as specified; a rejection leaves the node unchanged |
| ReplicationNode.FollowerNode.TruncateOnDivergence | xraft-core/src/replication.rs:536-596 | Refuses a cut below the high watermark, else cuts log, pending change, checkpoints and completions and asks again |
| ReplicationNode.FollowerNode.Cut | xraft-core/src/replication.rs:554-576 | The node refers to no entry at or after the cut |
| ReplicationNode.FollowerNode.AppendAndAdvance | xraft-core/src/replication.rs:598-658 | Appends only entries that continue the log without gaps, then raises the high watermark |
| ReplicationNode.FollowerNode.CheckEntries | xraft-core/src/replication.rs:602-620 | Reports a first offset that is not the log end before a gap, and nothing for entries that continue the log |
| ReplicationNode.FollowerNode.Append | xraft-core/src/replication.rs:621 | The log grows by exactly the entries and stays contiguous |
| ReplicationNode.FollowerNode.AdvanceHighWatermark | xraft-core/src/replication.rs:624-644 | Raises the high watermark to the smaller of the leader's and the log end, never lowers it, and notifies exactly the entries in between |
| ReplicationNode.FollowerNode.ExecuteCommitNotification | xraft-core/src/replication.rs:672-745 | State machine, then listener batch, then completions; an error stops before the later phases |
| ReplicationNode.FollowerNode.ApplyCommitted | xraft-core/src/replication.rs:685-727 | Applies in order and stops at the first failure |
| ReplicationNode.FollowerNode.ApplyEntry | xraft-core/src/replication.rs:686-726 | Command, voter record and leader change each as specified, with both error cases |
| ReplicationNode.FollowerNode.CollectCommands | xraft-core/src/replication.rs:733-737 | The listener batch is the commands among the committed entries, in order |
| ReplicationNode.FollowerNode.BuildFetchRequest | xraft-core/src/replication.rs:300-323 | A fetch from the log end to the known leader, only as follower and only when a leader is known |
| DeferredCompletion.DeferredCompletionQueue.ParkSender | xraft-core/src/deferred_completion.rs:18-20 | Adds one sender at an offset |
| DeferredCompletion.DeferredCompletionQueue.CompleteBelow | xraft-core/src/deferred_completion.rs:24-42 | Fires exactly the senders below the bound, in offset order, and returns how many |
| DeferredCompletion.DeferredCompletionQueue.FailFrom | xraft-core/src/deferred_completion.rs:50-65 | Drops exactly the senders at or above the threshold and returns how many |
| DeferredCompletion.ParkAccounts | xraft-core/src/deferred_completion.rs:18-20 | Parking adds one to the count of that ticket and to no other |
| DeferredCompletion.CompleteAccounts | xraft-core/src/deferred_completion.rs:24-42 | Completing neither loses nor duplicates any ticket |
| DeferredCompletion.FailAccounts | xraft-core/src/deferred_completion.rs:50-65 | Failing neither loses nor duplicates any ticket |
| DeferredCompletion.TakeOrdered | xraft-core/src/deferred_completion.rs:27-41 | Tickets taken in ascending offsets come out in offset order and belong to those offsets |
| LeaderEpochs.Rebuild | xraft-storage/src/lib.rs:97-109 | The rebuild scan keeps for each term its first leader-change offset |
| LeaderEpochs.RulesAgree | xraft-storage/src/lib.rs:97-109 | Keeping the first and overwriting with the last agree if and only if no two leader changes share a term |
| LeaderEpochs.ScansCover | xraft-storage/src/lib.rs:97-109 | Both rules record exactly the terms that have a leader change, each with the offset of one of them |
| ElectionTheorems.OneLeaderPerTerm | xraft-core/src/raft_node.rs:328-548 | In every run of the cluster, with any loss, duplication and reordering of messages, storage failures, crashes and restarts, two wins in one term are by the same node |
| ElectionTheorems.SameLeader | xraft-core/src/raft_node.rs:638-691 | Two running nodes that are both leader of the same term are the same node |
| ElectionTheorems.ElectionRestriction | xraft-core/src/raft_node.rs:427-433 | Every leader had durable votes of more than half the voters, each cast when the voter's last (term, offset) was no greater than that of the log the leader asked with; the log at the win extends that log, and equals it if and only if no rollback of that node failed in that term |
| ElectionShapes.LogsWellShaped | xraft-core/src/raft_node.rs:604-691 | In every run a log that only elections wrote has terms no later than the current one, and has contiguous offsets, non-decreasing terms, one leader change per term and at most one voters record if and only if its node never kept another entry in a term whose leader change it had failed to roll back |
| ElectionShapes.WinShapeExactly | xraft-core/src/raft_node.rs:638-691 | An attempt to win, whatever its appends do, keeps the log well-shaped if and only if the log held no leader change of the term or is left as it was |
| ElectionExamples.SecondLeaderChange | xraft-core/src/raft_node.rs:665-670 | A run of two voters in which a rollback fails, the same granted vote arrives again, and the leader ends with two leader changes of one term |
| ElectionExamples.SoleVoterLeads | xraft-core/src/raft_node.rs:356-358 | A run in which a sole voter leads term 1 with a leader change and a voters record, all committed |
| ElectionTheorems.GrantedOnce | xraft-core/src/raft_node.rs:421-458 | No voter ever answers yes to two candidates in one term, through any crashes |
| ElectionMajority.MajorityElects | xraft-core/src/raft_node.rs:328-548 | From any cluster, reachable or not: a follower or candidate is elected in its next term by some run whenever more than half of the voters, itself among them, are up, have given no other vote in that term and have logs no fresher than its own |
| ElectionMajority.NewClusterElects | xraft-core/src/raft_node.rs:180-369 | In a new cluster of any size any majority that comes up can elect any of its members in term 1 |
| ElectionMajority.TwoOfThree | xraft-core/src/raft_node.rs:581-588 | Any two of three voters can elect either of them |
| ElectionExact.CountsExactly | xraft-core/src/raft_node.rs:498-548 | A counted vote makes a leader if and only if more than half of the voters are then counted and the appends succeed |
| ElectionExact.IgnoresExactly | xraft-core/src/raft_node.rs:498-548 | Any other answer changes nothing, unless it brings a later term, which is taken over and stored |
| ElectionExact.LeadsExactly | xraft-core/src/raft_node.rs:638-691 | A node with enough votes leads if and only if its appends succeed; the log then ends with its leader change and, if there was none, a record of its voters, and a sole voter has committed it all |
| ElectionExact.FailedWinLeaves | xraft-core/src/raft_node.rs:638-675 | When they fail the node stays what it was and the log too, except that the leader change stays if and only if the process died after it or could not take it back |
| ElectionExact.StandsExactly | xraft-core/src/raft_node.rs:328-369 | A timeout raises the term by one with a stored vote for oneself, and makes a leader if and only if that vote is a majority and all is written |
| ElectionExact.OthersDoNotStand | xraft-core/src/raft_node.rs:329-336 | Leaders and nodes without a cluster refuse to stand |
| ElectionExact.AsksExactly | xraft-core/src/raft_node.rs:461-492 | Exactly the other voters are asked, with the new term and the end of the log |
| ElectionExact.VotesExactly | xraft-core/src/raft_node.rs:377-458 | A request is answered once if and only if the saves succeed, and granted if and only if it comes from a voter, of no earlier term, with no other vote given in that term, and with a log no older |
| ElectionExact.VoteEffect | xraft-core/src/raft_node.rs:377-458 | It changes exactly the term and the vote, both stored |
| ElectionExact.HearsExactly | xraft-core/src/raft_node.rs:289-320 | A node that knows its cluster hears only that cluster, and a reply that cannot be sent is an error that undoes nothing |
| ElectionExact.FreshnessOrder | xraft-core/src/raft_node.rs:427-433 | Logs are compared by last term, then last offset; any two can be compared |
| ElectionExact.LastInfoExactly | xraft-core/src/raft_node.rs:591-601 | The end of a log is the term and offset of its last entry |
| ElectionExact.StartsExactly | xraft-core/src/raft_node.rs:106-171 | A node starts unattached on empty stores and otherwise as a follower with the stored term, vote and cluster, the voters of the snapshot or of the latest record in the log, and the bounds of both |
| ElectionExact.LatestExactly | xraft-core/src/raft_node.rs:150-157 | The scan finds the last voters record that can be decoded, and nothing if and only if none can |
| ElectionExact.RestartKeepsVote | xraft-core/src/raft_node.rs:106-171 | A restart after a save has the saved term, vote and cluster |
| ElectionExact.RestartKeepsVoters | xraft-core/src/raft_node.rs:638-691 | A leader that wrote its voter list has it after a restart |
| ElectionExact.BootstrapsExactly | xraft-core/src/raft_node.rs:180-230 | Bootstrap succeeds if and only if the node has no cluster, its stores are empty, the cluster id is real, and the voters are distinct and name the node |
| ElectionSteps.StepInv | xraft-core/src/raft_node.rs:289-548 | Every event keeps the invariant of durable votes, candidacies, counted votes, messages and wins |
| ElectionSteps.TimeoutMove | xraft-core/src/raft_node.rs:328-369 | A timeout keeps it, whether the save succeeds, fails before or fails after writing |
| ElectionSteps.RequestMove | xraft-core/src/raft_node.rs:377-458 | A delivered vote request keeps it, with both saves free to fail |
| ElectionSteps.ResponseMove | xraft-core/src/raft_node.rs:498-548 | A delivered vote response keeps it, including a win with failing appends |
| ElectionSteps.GrantIsStored | xraft-core/src/raft_node.rs:435-457 | A granted real vote is on disk, for that candidate and term, before the answer is sent |
| ElectionSteps.RestartNode | xraft-core/src/raft_node.rs:106-171 | A node restarted on its stores has the stored term and vote and the cluster's voter list or none |
| ElectionSteps.LeaderEffect | xraft-core/src/raft_node.rs:638-691 | The appends of a winner only extend the log, keep the stored vote, and record no other voter list |
| Quorum.Overlap | xraft-core/src/raft_node.rs:581-588 | Two parts that together outnumber the whole share a member |
| RaftNode.RaftNode.constructor | xraft-core/src/raft_node.rs:47-95 | A node starts recovered when any store holds data, else unattached |
| RaftNode.RaftNode.RecoverState | xraft-core/src/raft_node.rs:106-171 | Term, vote, voters and log bounds from quorum state, snapshot and log, as specified |
| RaftNode.RaftNode.BootstrapCluster | xraft-core/src/raft_node.rs:180-230 | Refused when bootstrapped, attached, or any store holds data, or the voter list is unfit; else a follower of term 0, in memory only |
| RaftNode.ValidateBootstrapConfig | xraft-core/src/raft_node.rs:717-753 | Accepts exactly a non-nil cluster id with a duplicate-free voter list that names the node |
| RaftNode.ScanVoters | xraft-core/src/raft_node.rs:150-157 | The backward scan finds the latest voters record that can be decoded |
| RaftNode.AnyVotersRecord | xraft-core/src/raft_node.rs:604-614 | Whether the log holds a voters record |
| RaftNode.RaftNode.EnoughVotes | xraft-core/src/raft_node.rs:581-588 | The quorum test of the specification |
| RaftNode.RaftNode.LastInfo | xraft-core/src/raft_node.rs:591-601 | Last offset and term as read from the log, with the fallbacks for an empty log and a missing entry |
| RaftNode.RaftNode.PersistQuorum | xraft-core/src/raft_node.rs:346-354 | Memory's term and vote reach the store unless the save fails before writing |
| RaftNode.RaftNode.WinElection | xraft-core/src/raft_node.rs:638-691 | Leader-change entry, voters record only if none, rollback on refusal, leader only after all appends |
| RaftNode.RaftNode.Broadcast | xraft-core/src/raft_node.rs:461-492 | One request with the last log position to every other voter |
| RaftNode.RaftNode.HandleElectionTimeout | xraft-core/src/raft_node.rs:328-369 | Stands in the next term, saves, then wins at once or asks the others |
| RaftNode.RaftNode.HandleVoteRequest | xraft-core/src/raft_node.rs:377-458 | Unknown candidate, higher term, stale term, vote taken, stale log, pre-vote and grant as specified, with both save failures |
| RaftNode.RaftNode.HandleVoteResponse | xraft-core/src/raft_node.rs:498-548 | Higher term, stale or foreign answers, counting and winning as specified |
| RaftNode.RaftNode.HandleRpc | xraft-core/src/raft_node.rs:289-320 | Cluster fencing, dispatch and the reply to the sender as specified; a reply that cannot be sent is an error and what was decided stands |
| EventLoopRun.NeverVotesTwice | xraft-core/src/election.rs:106-168 | In every crash-free run, with any other message injected, no node grants two candidates in one term, through higher-term and check-quorum step-downs |
| EventLoopRun.OneLeaderPerTerm | xraft-core/src/event_loop.rs:182-316 | In every such run with one voter list at most one node ever becomes leader in a term |
| EventLoopRestriction.ElectionRestriction | xraft-core/src/election.rs:120-140 | Every vote behind a win, the winner's own aside, was given by a voter whose log was empty or no fresher than the request claimed; unless a request for that candidate and term was injected, the claim is the log the winner won with |
| EventLoopRestriction.RpcSteady | xraft-core/src/event_loop.rs:182-316 | A message never lowers a term nor changes the log of a node that goes on standing, and sends a granted vote only after the log check |
| EventLoopMajority.MajorityElects | xraft-core/src/event_loop.rs:156-316 | From any cluster of event loops: a voter that more than half of the voters, itself counted, would vote for in its next term is elected in that term by some run |
| EventLoopExact.CheckExactly | xraft-core/src/event_loop.rs:109-152 | After a failed check the node is a follower of the same term with its vote kept, no leader and no votes, on disk too, and nothing is sent; after a passed one nothing has changed |
| EventLoopExact.CheckStepsDown | xraft-core/src/event_loop.rs:109-152 | After any run, a failed check ends the leadership of that node and changes no other |
| EventLoopExact.NeverLeadsAgain | xraft-core/src/event_loop.rs:109-152 | In every run terms do not fall, and a node that is neither leader nor candidate in a term never leads that term |
| EventLoopExact.VotesExactly | xraft-core/src/election.rs:106-168 | A request is answered once, granted if and only if its term is later, or the same with no other vote given by a node that does not lead, and its log is no older or the voter's is empty; a later term and the vote are stored |
| EventLoopExact.PreVotesExactly | xraft-core/src/election.rs:172-211 | A pre-vote is granted if and only if its term is no earlier and its log no older or the voter's empty, and changes nothing |
| EventLoopExact.CountsExactly | xraft-core/src/event_loop.rs:259-292 | A counted vote makes a leader if and only if more than half of the voters are then counted; state, quorum record and leader-change entry are then stored |
| EventLoopExact.AnswersIgnored | xraft-core/src/event_loop.rs:259-292 | Any other answer of no later term counts for nothing |
| EventLoopExact.LaterTermTaken | xraft-core/src/event_loop.rs:199-240 | A later term in any message but a pre-vote makes any node a follower of it, stored and without a vote |
| EventLoopExact.OthersIgnored | xraft-core/src/event_loop.rs:182-196 | Messages of other clusters do nothing |
| EventLoopExact.FetchesLeaveIt | xraft-core/src/event_loop.rs:293-310 | Fetches and snapshots of no later term change nothing here |
| EventLoopExact.StandsExactly | xraft-core/src/election.rs:47-101 | A voter that times out is candidate of the next term with its own vote stored, or leads at once if it is alone |
| EventLoopExact.AsksExactly | xraft-core/src/election.rs:47-101 | It asks exactly the other voters; a node that is no voter does nothing |
| EventLoopRun.StoresMirrorMemory | xraft-core/src/event_loop.rs:109-316 | After every event of every run the stored term and vote equal those in memory, the stored log ends where memory says with the same last term, and every leader is a recorded win |
| EventLoopRun.StepInv | xraft-core/src/event_loop.rs:109-316 | Every event keeps the invariant behind these |
| EventLoopRun.RpcSound | xraft-core/src/event_loop.rs:182-316 | A message never takes a vote back within its term, and its actions store the resulting term and vote |
| EventLoopRun.CheckSound | xraft-core/src/event_loop.rs:109-152 | A failed check-quorum steps down without giving up the vote of the term |
| EventLoopRun.TimeoutSound | xraft-core/src/event_loop.rs:156-177 | Standing for election stores the next term and the vote for oneself, also when a sole voter wins at once, and grants nothing |
| EventLoopRun.PreVotePure | xraft-core/src/election.rs:172-211 | A pre-vote request changes neither state nor stores and grants no real vote |
| EventLoop.EventLoop.HandleRpc | xraft-core/src/event_loop.rs:182-316 | State, stores and packets after a message are those of the specified reaction |
| EventLoop.EventLoop.HandleElectionTimeout | xraft-core/src/event_loop.rs:156-177 | The same for an election timeout |
| EventLoop.EventLoop.HandleCheckQuorum | xraft-core/src/event_loop.rs:109-152 | The same for a check-quorum timer |
| EventLoop.EventLoop.HandleVoteRequest | xraft-core/src/election.rs:106-168 | Grants only as non-leader, in the current term, to the candidate already voted for or none, with a log no older |
| EventLoop.EventLoop.HandlePreVoteRequest | xraft-core/src/election.rs:172-211 | Answers without changing the state |
| EventLoop.EventLoop.HandleVoteResponse | xraft-core/src/event_loop.rs:259-292 | Counts granted real votes of voters for a candidate in its term |
| EventLoop.EventLoop.RecordVote | xraft-core/src/election.rs:246-256 | Adds the voter and reports a majority, only as candidate |
| EventLoop.EventLoop.OnBecomeLeader | xraft-core/src/event_loop.rs:320-343 | Leader state, quorum state with the vote kept, and the leader-change entry |
| EventLoop.EventLoop.StartElection | xraft-core/src/election.rs:47-101 | Next term, vote for oneself, quorum state first, then a request to every other voter |
| EventLoop.EventLoop.ExecuteBatch | xraft-core/src/io_action.rs:67-118 | The actions take effect in batch order |
| SegmentRuns.Lives | xraft-storage/src/segment_log.rs:44-292 | Through any sequence of legal operations, restarts and crashes after any byte of an append, the answers and bounds are those of one contiguous log in which an interrupted append happened wholly or not at all |
| SegmentRuns.Perform | xraft-storage/src/segment_log.rs:158-292 | One operation answers as the contiguous log does |
| SegmentRuns.Restart | xraft-storage/src/segment_log.rs:44-110 | Reopening the files of a log gives the same log |
| SegmentRuns.CrashInAppend | xraft-storage/src/segment_log.rs:158-196 | Reopening after any byte prefix of an appended batch, with or without a new segment file, gives the old log or the old log with the whole batch |
| SegmentRuns.FinishAppend | xraft-storage/src/segment_log.rs:158-196 | An append that finishes leaves exactly the files that a crash after its last byte would |
| SegmentRuns.TornFinds | xraft-storage/src/segment_log.rs:61-97 | What recovery finds in that case is a well-formed row of segments with the right bounds |
| SegmentRecovery.CleanRestart | xraft-storage/src/segment_log.rs:44-66 | The sorted files of a log recover to the same row of segments |
| SegmentRecovery.TornLastRestart | xraft-storage/src/segment.rs:62-121 | A torn append to the last file recovers to the old segments or those with the whole batch |
| SegmentRecovery.TornNewRestart | xraft-storage/src/segment_log.rs:180-190 | The same when the append had started a new file |
| SegmentRecovery.RecoveryIdempotent | xraft-storage/src/segment.rs:62-121 | Recovery of any bytes keeps their contents, leaves a file that reads without errors, and changes nothing a second time |
| SegmentLog.SegmentedLog.constructor | xraft-storage/src/segment_log.rs:44-110 | Opens whatever files there are in offset order, drops empty trailing ones, and takes the larger of the stored and physical start; well-formed files give a valid log |
| SegmentLog.SegmentedLog.Append | xraft-storage/src/segment_log.rs:158-196 | Refuses a batch that does not start at the log end and then changes nothing; otherwise the log grows by exactly the batch, as one frame after the last file, or in a new file at the log end if and only if there is none or the last has reached the limit |
| SegmentLog.SegmentedLog.AppendInPlace | xraft-storage/src/segment_log.rs:189-195 | An append to the last segment extends the contiguous log |
| SegmentLog.SegmentedLog.AppendRolled | xraft-storage/src/segment_log.rs:173-195 | An append to a new segment extends the contiguous log and segments still abut |
| SegmentLog.SegmentedLog.Roll | xraft-storage/src/segment_log.rs:173-190 | Starts an empty segment at the log end |
| SegmentLog.SegmentedLog.Read | xraft-storage/src/segment_log.rs:198-222 | Reads across segments as from one contiguous log, without corruption errors |
| SegmentLog.SegmentedLog.EntryAt | xraft-storage/src/segment_log.rs:289-292 | Looks up as in one contiguous log |
| SegmentLog.SegmentedLog.TruncateSuffix | xraft-storage/src/segment_log.rs:224-252 | Cuts as one contiguous log does, and segments still abut; the log stays valid if and only if the cut does not lie before its start |
| SegmentLog.SegmentedLog.TruncatePrefix | xraft-storage/src/segment_log.rs:254-279 | Stores the new start; gives a valid log that is the contiguous one cut at the front if and only if the cut lies within the log |
| SegmentLog.PrefixCutOutside | xraft-storage/src/segment_log.rs:254-279 | A start moved before the log or past its end is no cut of the contiguous log |
| SegmentLog.SegmentedLog.PopFrom | xraft-storage/src/segment_log.rs:232-241 | Drops trailing segments that begin at or after the cut but the first |
| SegmentLog.SegmentedLog.CutLastSegment | xraft-storage/src/segment_log.rs:244-246 | Cuts inside the last segment and leaves the others alone |
| SegmentLog.SegmentedLog.RemoveBefore | xraft-storage/src/segment_log.rs:258-270 | Removes exactly the segments that end at or before the new start |
| SegmentLog.OpenAll | xraft-storage/src/segment_log.rs:61-66 | Opens every listed file on its recovered contents, each as its own object |
| SegmentLog.PopEmpty | xraft-storage/src/segment_log.rs:68-78 | Removes empty trailing segments but the first |
| SegmentViews.LogicalSound | xraft-storage/src/segment_log.rs:138-147 | A row of abutting segments within its bounds is one contiguous log from start to end |
| SegmentViews.NewSegmentSound | xraft-storage/src/segment_log.rs:173-195 | Adding a segment at the end grows the contiguous log |
| SegmentViews.SuffixCutSound | xraft-storage/src/segment_log.rs:224-252 | Dropping trailing segments and cutting the last one cuts the contiguous log |
| SegmentViews.PrefixCutSound | xraft-storage/src/segment_log.rs:254-279 | Removing leading segments and moving the start cuts the front of the contiguous log |
| Framing.RecoveryKeepsLongestRun | xraft-storage/src/segment.rs:62-121 | The kept part of any bytes is a run of valid batches, told from the bytes alone, that no other run goes beyond, and the entries found are exactly theirs |
| Framing.ParsesExactly | xraft-storage/src/segment.rs:71-107 | A batch is found if and only if the bytes are the magic, the little-endian checksum of the payload, its length and a payload that decodes; otherwise the first thing wrong is named |
| Framing.WrongChecksumStops | xraft-storage/src/segment.rs:96-99 | Recovery stops before bytes whose checksum is not theirs |
| Framing.AppendFrame | xraft-storage/src/segment.rs:125-151 | A frame after a clean file reads back as one more batch |
| Framing.TornFrame | xraft-storage/src/segment.rs:62-121 | A clean file followed by any proper prefix of a frame recovers to the clean file |
| Framing.ParseFrame | xraft-storage/src/segment.rs:130-139 | A written frame parses back to its entries, whatever precedes it |
| Segment.ReadBatch | xraft-storage/src/segment.rs:71-107 | Header, magic, length, checksum and decoding checked in that order, as one parse |
| Segment.RecoverScan | xraft-storage/src/segment.rs:62-121 | The recovery loop stops at the end of the last valid batch and counts its entries |
| Segment.ReadFile | xraft-storage/src/segment.rs:154-195 | The read loop gives the entries in range or the first corruption |
| Segment.CleanReads | xraft-storage/src/segment.rs:154-195 | A clean file reads without errors |
| Segment.ReadsExactly | xraft-storage/src/segment.rs:154-195 | Reading any bytes gives the entries in range of the longest run of valid batches if fewer bytes than a header follow, and otherwise says what is wrong with the bytes after it, a wrong checksum among others |
| Segment.FindCut | xraft-storage/src/segment.rs:203-258 | In any clean file the walk finds the first batch with an entry at or after the offset, and what is kept of it |
| Segment.CutBytes | xraft-storage/src/segment.rs:203-271 | The bytes left by a cut of any clean file are clean and hold the batches before that one and what is kept of it |
| Segment.KeptIsCut | xraft-storage/src/segment.rs:230-256 | For consecutive offsets that is exactly the entries before the offset |
| Segment.SegmentFile.constructor | xraft-storage/src/segment.rs:32-59 | Opening keeps the recovered bytes and contents |
| Segment.SegmentFile.Append | xraft-storage/src/segment.rs:125-151 | The file grows by one frame and the contents by the batch |
| Segment.SegmentFile.Read | xraft-storage/src/segment.rs:154-195 | The entries in range, in order |
| Segment.SegmentFile.TruncateSuffix | xraft-storage/src/segment.rs:203-271 | On any valid file, cuts at the first batch with an entry at or after the offset and reports whether there was one; for consecutive offsets exactly the entries before the offset remain |
| IoStage.Execute | xraft-core/src/io_stage.rs:81-111 | For every batch, every behaviour of the stores and every interleaving that lets the groups finish: each store ends as the actions meant for it leave it in batch order, result i is the success of its kind if and only if its store did not fail on action i and else its failure with that error, every action runs once, and none overtakes an earlier one of its store |
| IoStage.InOrderAnswers | xraft-core/src/io_stage.rs:113-206 | Each result of the batch in order is the success of its kind of action if and only if its store, after the earlier actions meant for it, did not fail, and otherwise that kind's failure with the store's error |
| IoStage.MergedInOrder | xraft-core/src/io_stage.rs:103-110 | Sorting the groups' results by place gives the results of the batch in order |
| IoStage.GroupAlone | xraft-core/src/io_stage.rs:113-206 | Each group alone does to its store what the whole batch in order does, with its results at their places |
| IoStage.PlacesOfGroup | xraft-core/src/io_stage.rs:82-94 | A group holds exactly the places of its actions, in batch order |
| IoStage.Interleave | xraft-core/src/io_stage.rs:96-101 | Any schedule leaves each group where running it alone does |
| IoStage.Partition | xraft-core/src/io_stage.rs:82-94 | Each group gets exactly its actions with their places |
| Membership.RunFollowsLog | xraft-core/src/membership.rs:81-172 | In every run, with proposals appended where they are recorded, cuts and commits reported, commits also reported again or of other offsets, and snapshots applied: committed voters are the last record below the watermark, effective voters the last record in the log, and at most one record is uncommitted |
| Membership.CommitsExactly | xraft-core/src/membership.rs:127-144 | A commit succeeds if and only if it is for the offset of the pending change; a refusal changes nothing and says why |
| Membership.ProposesExactly | xraft-core/src/membership.rs:100-118 | A proposal is taken if and only if nothing is pending |
| Membership.QuorumIsMajority | xraft-core/src/membership.rs:31-33 | A quorum is exactly more than half of the voters |
| Membership.ProposalAdmitted | xraft-core/src/membership.rs:105-118 | In every run a proposal is accepted if and only if no voter record is uncommitted |
| Membership.QuorumsAlwaysMeet | xraft-core/src/membership.rs:31-33 | If each proposal differs from the committed voters in at most one node, every quorum of the committed and every quorum of the effective voters meet, at every step of every run |
| Membership.QuorumsMeetExactly | xraft-core/src/membership.rs:31-33 | For two non-empty voter sets all quorums meet if and only if the two quorum sizes together exceed the size of the union |
| Membership.MembershipState.EffectiveVoters | xraft-core/src/membership.rs:81-86 | The pending voters if any, else the committed |
| Membership.MembershipState.ProposeChange | xraft-core/src/membership.rs:100-118 | Refused with the pending offset while a change is pending, else recorded at the offset |
| Membership.MembershipState.CommitChange | xraft-core/src/membership.rs:127-144 | Nothing pending and another offset are refused without effect; else the pending voters become the committed |
| Membership.MembershipState.ClearPendingIfTruncated | xraft-core/src/membership.rs:154-160 | Clears the pending change exactly when it lies at or after the cut |
| Membership.MembershipState.ApplySnapshot | xraft-core/src/membership.rs:169-172 | Replaces the committed voters and clears the pending change |
| SnapshotTransfer.Transfer | xraft-storage/src/snapshot_store.rs:106-171 | For every snapshot, also an empty one, every positive chunk size and any stale receiver file, reading and writing chunks from position 0 until done ends with the sender's bytes and the metadata written, and touches no other snapshot |
| SnapshotTransfer.NextChunk | xraft-storage/src/snapshot_store.rs:106-135 | Writing a chunk after what precedes it extends the prefix of the contents, and a chunk that is not the last is not empty |
| SnapshotTransfer.SnapshotStore.ReadChunk | xraft-storage/src/snapshot_store.rs:106-135 | The bytes from the position up to the chunk size, done when the end is reached |
| SnapshotTransfer.SnapshotStore.WriteChunk | xraft-storage/src/snapshot_store.rs:142-171 | Position 0 starts the file afresh, any other needs the file; metadata is written with the last chunk |
| SnapshotTransfer.WritesExactly | xraft-storage/src/snapshot_store.rs:142-171 | A write puts its bytes at the position, keeps all others and fills a gap with zeros |
| MemoryLogs.SideBySide | xraft-storage/src/memory_log_store.rs:56-118 | Any run of reads, lookups, appends at the log end, cuts of the back anywhere and cuts of the front at or after the start gives the same answers and bounds from the index store and the filter store, those of one contiguous log |
| MemoryLogs.Both | xraft-test/src/memory_log.rs:37-85 | One operation on both |
| MemoryLogs.PrefixCutsAgree | xraft-test/src/memory_log.rs:62-67 | On a contiguous log the two cuts of the front agree if and only if the cut does not lie before the start |
| MemoryLogs.IndexedLogStore.Append | xraft-storage/src/memory_log_store.rs:56-67 | Appends all or, when fsync is set to fail, nothing |
| MemoryLogs.IndexedLogStore.Read | xraft-storage/src/memory_log_store.rs:70-79 | The slice in range for any bounds |
| MemoryLogs.IndexedLogStore.EntryAt | xraft-storage/src/memory_log_store.rs:82-89 | The entry at an offset or none |
| MemoryLogs.IndexedLogStore.TruncateSuffix | xraft-storage/src/memory_log_store.rs:92-101 | Cuts the back for any offset |
| MemoryLogs.IndexedLogStore.TruncatePrefix | xraft-storage/src/memory_log_store.rs:104-118 | Cuts the front for any offset; one before the start changes nothing |
| MemoryLogs.FilterLogStore.Append | xraft-test/src/memory_log.rs:37-43 | Appends all |
| MemoryLogs.FilterLogStore.Read | xraft-test/src/memory_log.rs:45-54 | The entries in range by filtering, the slice on a contiguous log |
| MemoryLogs.FilterLogStore.EntryAt | xraft-test/src/memory_log.rs:82-85 | The first entry with the offset, the indexed one on a contiguous log |
| MemoryLogs.FilterLogStore.TruncateSuffix | xraft-test/src/memory_log.rs:56-60 | Keeps what lies before the offset |
| MemoryLogs.FilterLogStore.TruncatePrefix | xraft-test/src/memory_log.rs:62-67 | Keeps what lies at or after the offset and moves the start there |

## Left out

- Leader-side fetch handling, the leader's high watermark and divergence answers are not part of this model, so log matching and leader completeness are not claimed.
- ReplicationCatchUp.CatchesUp: takes as given that the leader answers from the offset it is asked for; the leader's side is not modelled.
- Clocks, deadlines and random timeouts: a timer is an event that may happen at any time.
- Integers are unbounded; 64-bit overflow of terms and offsets is not modelled.
- ElectionTheorems.OneLeaderPerTerm: assumes every bootstrap is given the same duplicate-free voter list and every recorded voter list is that one, because membership changes are a separate machine here.
- ElectionTheorems.ElectionRestriction: assumes log reads succeed; a log that replication changes does so while the node is no candidate.
- ElectionShapes.LogsWellShaped: covers nodes whose log only elections wrote; a refused append leaves the log as it was.
- RaftNode.RaftNode.LastInfo: the fallback to term 0 when the last entry cannot be read is modelled for a missing entry, not for a read error.
- RaftNode.AnyVotersRecord: a log read that fails, which the code takes as no record, is not modelled.
- RaftNode.RaftNode.constructor: configuration validation and errors of the stores on opening are not modelled.
- RaftNode.RaftNode.Broadcast: a send that fails is a packet the network loses.
- EventLoopRun.OneLeaderPerTerm: makes no claim about crashes, because sends overlap with storage in the event loop; the vote bookkeeping of pre-vote answers is kept but decides nothing.
- EventLoop.EventLoop.HandleCheckQuorum: whether the check passes is an input, because it depends on clocks.
- EventLoop.EventLoop.ExecuteBatch: the overlap of sends with storage and the stop at the first error are not modelled.
- ReplicationTheorems.CompletionsSettled: assumes clients park at offsets that are not committed yet.
- ReplicationTheorems.DurableMirrorsMemory: claims the log; the quorum state is the subject of `StoredMirrorsExactly`.
- ReplicationNode.FollowerNode.BuildFetchRequest: the byte limit, cluster id and epoch of the request are not modelled; fetch and election deadlines are left out.
- ReplicationNode.FollowerNode.Handle: starting a snapshot transfer is one request for its first bytes; the coordinator that continues it is not part of this model, and timers are not reset.
- SegmentLog.SegmentedLog.Append: a payload of 2^32 bytes or more is excluded, because the frame length field would wrap; batches have consecutive offsets and the size limit is positive.
- SegmentLog.SegmentedLog.TruncatePrefix: removing files succeeds; a crash inside a suffix rewrite or between removing segments and storing the start is not modelled, because the code does not make these atomic.
- SegmentRuns.Lives: suffix cuts do not lie before the log start and prefix cuts lie within the log, because the log is not valid after others.
- IoStage.Execute: stores are deterministic; a panic or cancellation in the middle of a batch is not modelled, nor is the two-group executor that stops at the first error.
- SnapshotTransfer.Transfer: the sender's file does not change during the transfer and files do not fail to open.
- MemoryLogs.SideBySide: prefix cuts do not lie before the start, where the stores differ, and an append with fsync set to fail is one of no entries.
- Membership.RunFollowsLog: truncation never reaches below the watermark, as the follower pipeline guarantees.
- Leader-epoch checkpoint files, the segment index, quorum-state files, wire codecs, channels and simulators are not modelled.
