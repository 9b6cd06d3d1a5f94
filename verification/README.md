# A verified model of the Raft library

The library replicates a log of client operations over a cluster of nodes with the Raft algorithm (Ongaro and Ousterhout,
"In Search of an Understandable Consensus Algorithm"). This project models its consensus core (`raft.go`), the durable log
under it (`log.go`), the operation manager (`operation.go`) and cluster configurations (`configuration.go`), and proves
properties of them. `dafny verify dfyconfig.toml` checks everything.

## How it is built

**The cluster.** `Protocol` has one pure function for each lock-held section of a node: the election tick, the request for a
vote, the vote reply, a client's submission, AppendEntries built, handled and answered, the commit scan, one application, a
snapshot taken, sent, installed and answered, and a restart. `Cluster` puts nodes and messages together. A message that was
sent stays in the network for ever, so messages are lost, duplicated, delayed and reordered without limit, and a node may
crash at any time. `Invariant` states what every reachable state keeps, `Stability`, `QuietSteps`, `ElectionSteps`,
`LeaderSteps`, `ReplicationSteps` and `FollowerSteps` show that each kind of step keeps it, and `Safety` and `Clients` draw the
theorems from it. All of them speak of every run and of any number of nodes, terms, entries and crashes; most compare two
arbitrary moments of a run.

The heart of the invariant is leader completeness stated before the fact. For a term T and an index i, the voters that hold the
first i entries of the log of T's leader, or can still come to hold them because they have not left T, are the ones that may
yet commit entry i in T. As long as they are a majority, every later leader's log has that entry. The set only shrinks, which
makes the statement inductive.

**What the steps bring about.** Safety also holds of a node that refuses everything, so the other half is proved as well.
`Progress` says exactly when a vote is granted, and that a node which no voter of a majority is ahead of is elected in one
round of pre-votes and one of votes. `Repair` follows one leader and one follower through the back-off of the log to the
moment when the follower has the leader's log and knows what is committed, and shows that compaction is invisible; `CatchUp`
does the same for a follower that the leader has compacted past, and says where a snapshot is installed and what a restart
finds of it. A majority that holds the leader's log makes the commit scan commit all of it, and `Service` shows that whoever
waits for an applied operation gets its answer. `Delivery` puts these together: from any moment of a run, a leader that can
repair the logs of a majority brings its whole log to its state machine and answers every client that waits.

**The node.** The class `RaftNode.Raft` has the fields of the program's node, with a durable log that is compacted for real, a
snapshot file and a stored term and vote. Its handlers run the program's loops (the conflict search, skip/truncate/append, the
commit scan over the follower map, the apply loop), and each one's postcondition is the matching function of `Protocol` on the
abstract node, whose log is the snapshot's entries followed by what the file still holds. `NodeInCluster` shows that what a
handler demands holds in every reachable state, so that no lookup whose failure would end the program can fail, and that what
the bound on log repair asks for holds there too. `Simulation.Perform` puts the two together: whatever event of a run is at a
node, the handlers of an object that stands where the run's node stands perform it, with the same new state, the same messages
and the same answers. `FirstStart.StartNode` opens an empty file and bootstraps a node; its abstract node is the one that every
run starts from, so what the class asks of its logs and of the encoding of entries can be met.

**The log file.** `Frames` has the file format, `Storage.PersistentLog` the log with its entries, its bytes and its write
position. Every operation keeps the file equal to the frames of the entries and the position at the end; closing, opening and
replaying gives back the same entries.

**The rest.** `SnapshotTransfer` moves snapshot files over a bad network, through resets, restarts and new terms. `Membership`
has configurations, their changes and their quorums. `Operations` has the clients that wait.

## Assumptions on runs

The program is looser than the paper in a few places. The safety theorems hold under the following assumptions. A1 and A6 are
part of `Cluster.Init`, A5 and A7 are in the shape of the model, and A2 to A4 are predicates on single events. The durability of terms
and votes needs none of A2 to A4 and is stated for every run of the protocol (`Cluster.FreeRun`).

- **A1, fixed voters** (`Cluster.Init`): the member and voter sets do not change and there are at least two members. A node alone
  becomes leader without raising its term.
- **A2, votes are kept** (`Cluster.KeepsVote`): stepping down clears the vote even when the term stays the same. The assumption
  says that no second vote follows from that. `Counterexamples.ForgottenVoteMakesTwoLeaders` is a run that breaks only this
  assumption and elects two leaders in one term. `Votes` says exactly which step loses a vote: a candidate or
  pre-candidate that has voted in its term hears from the leader of that same term. Runs without such a step obey the
  assumption and never elect two leaders of one term (`Safety.UnforgetfulElectionSafety`).
- **A3, replies are current** (`Cluster.RepliesAreCurrent`): a leader uses a reply only while its term is still the term of the
  request. The program compares only the reply's own term. `Counterexamples.StaleReplyBreaksMatchIndex` breaks only this, and
  the leader then counts an entry that the follower no longer has. `Conditions.ReplyKeepsExactly` says exactly which reply does
  that.
- **A4, vote requests are built in time** (`Cluster.AsksInTime`): the program builds each request for a vote after the round has
  started, and all requests of a round share one counter. `Counterexamples.LateRequestMakesTwoLeaders` breaks only this, and two
  leaders are elected in one term. `Conditions.VoteKeepsExactly` says exactly which vote is counted for a term it was not cast
  in.
- **A5, handlers are atomic**: the lock is not released inside a handler while the state machine applies, snapshots or restores,
  nor during the wait of InstallSnapshot (raft.go:1430-1432). There the program has already moved lastIncludedIndex to the new
  snapshot and waits until the log is applied up to it; until then `lastIncludedIndex <= lastApplied` is false of the program.
  The model moves the snapshot point only with the compaction that ends the wait. Nor does a crash fall inside a handler: a node
  that goes down after its snapshot is installed (raft.go:1418) and before its log is replaced (raft.go:1478) comes up with
  lastIncludedIndex above the end of its log, and compares votes with that log. `Conditions.TornInstallGrantsMore` says exactly
  when it can then grant a vote that it would have refused.
- **A6, common base** (`Cluster.Init`): every log starts with the bootstrap entry, index 1 and term 1. In the program one node
  writes it and the others receive it.
- **A7, snapshots arrive as they were sent**: the content of a snapshot request is the leader's (`Protocol.SnapRequest` carries it
  whole). The program sends files in chunks; `SnapshotTransfer.TransferIntegrity` justifies A7 for runs in which no chunk of an
  older snapshot meets the unfinished file of a newer one, and `SnapshotTransfer.OldChunkSpoilsFile` is a run in which one does.

The lease and the last-contact rule for refusing votes are modelled as a free choice to refuse, which only adds runs.

## What was found

- A crash between the two files of a snapshot's installation weakens the vote check (`Conditions.TornInstallGrantsMore`).
- A2, A3 and A4 are needed: each counterexample is a run of the untimed model, in which timeouts and leases may fall as they
  like, and breaks only one of them.
- A log append that is cut off after exactly the four length bytes is overlooked by a replay, which takes the end of the file
  for its regular end. The four bytes stay, and what is appended next is read as their payload (`Frames.TornAppend`,
  `Frames.OverlookedLength`).
- A chunk of an older snapshot that arrives while the file of a newer one is unfinished at just that length is written to the
  newer file, which is then installed with the wrong content (`SnapshotTransfer.OldChunkSpoilsFile`).
- A follower's refusal of a chunk for its old term looks like a success when its sender leads again in a still later term
  (`SnapshotTransfer.RefusalCountsAsSuccess`); this is A3 for snapshots.
- A request for a snapshot carries all the rest of the file, and is marked as the last one when that rest is short. When the
  final reply is lost, a file of 32768 bytes or more is offered for ever and never acknowledged
  (`SnapshotTransfer.LostLastReply`).
- A leader that demotes itself goes on counting itself in the commit scan. Its quorums still meet every electing quorum if and
  only if the number of voters is even (`Membership.LeaderCountsItself`).
- A removal does not count as pending, so two can be under way at once. Quorums of the two results always meet if and only if
  the number of voters was odd (`Membership.TwoRemovals`).

## Model

| member | source | states |
|---|---|---|
| Safety.ElectionSafety | raft.go:1112-1163 | One term never has two leaders, at any two moments of a run, across crashes and delayed or duplicated votes |
| Safety.LeaderAppendOnly | raft.go:716-735 | While a node leads one term, its log is only extended |
| Safety.LogMatching | raft.go:868-947 | Two logs, at any two moments, that have the same term at one index are identical up to it |
| Safety.LeaderCompleteness | raft.go:1705-1733 | What a commit scan committed in a term, every leader of any later term has at the same index, whichever moment comes first |
| Safety.StateMachineSafety | raft.go:1743-1803 | Of what two nodes have applied, at any two moments, one is a prefix of the other |
| Safety.IndicesInOrder | raft.go:1753-1757 | Every node has applied exactly its entries 1 to lastApplied, and snapshot, applied, commit and last index are in order |
| Safety.AppliedOnlyExtends | raft.go:1743-1803 | Between crashes the applied sequence is only extended and no index goes back, the commit index included |
| Safety.CommittedNeverLost | raft.go:914-947 | What a node once knew to be committed stays in its log for the rest of the run, through truncations, snapshots and crashes |
| Safety.MatchIndexSound | raft.go:1061-1071 | A leader's match index for a follower is at most what the follower took over in that term, and the follower still holds it while in that term |
| Safety.CommitByLastIndexIsSound | raft.go:949-952 | A request ends at or above the commit index it carries, and a follower that advances commits exactly to that index, inside what the request verified |
| Safety.DurableTermAndVote | raft.go:1902-1907 | In every run, whether or not it obeys A2 to A4, the stored term and vote equal those in memory after every step, no term ever decreases, and a restart undoes neither |
| Safety.UnforgetfulElectionSafety | raft.go:836-844 | Runs that obey A3 and A4 and in which no node that has voted steps down within its term never have two leaders of one term |
| Safety.StepInv | raft.go:797-955 | Every event keeps the whole invariant and loses no history |
| Safety.InitInv | raft.go:380-408 | The cluster in which every log is the bootstrap entry satisfies the invariant |
| LeaderSteps.WinnerIsComplete | raft.go:1138-1163 | A node with a majority of votes in its term holds every entry that an earlier term may have committed |
| ReplicationSteps.ScanIsCommitted | raft.go:1715-1733 | An index that passes the commit scan's test is held by a real majority of voters |
| FollowerSteps.AdoptedLogOK | raft.go:912-947 | A follower that takes over a leader's prefix, or keeps its log because it has it already, still matches all leader logs |
| Clients.AnswersNeverCrossed | raft.go:1764-1799 | Every success reply carries what its own client submitted, no client is answered twice, and every node applies that operation at that index and term |
| Clients.WaitingClientsHoldTheirIndex | raft.go:730-735 | A waiting client is with a current leader, above what is applied, and its operation stands at its index in the current term |
| Service.WaitsUntilAnswered | raft.go:1764-1781 | In a run, a client that a step of the apply loop lets wait no longer has got its answer in that step |
| Service.ServedWhileLeading | raft.go:716-747 | From its submission on, and as long as its node leads, an operation stands at its index; its client waits there until the entry is applied, and then has its answer |
| Delivery.OperationsAreDelivered | raft.go:716-747 | A leader that repairs the logs of enough voters to make a majority with itself commits its whole log in one scan, applies it, and answers every waiting client with its own operation |
| Delivery.RunDelivers | raft.go:977-1072 | The same from every moment of a run at which enough voters are in no later term and not behind the leader's snapshot; the answers carry what was submitted |
| Entries.MergeAdoptsLeaderPrefix | raft.go:914-947 | Skip/truncate/append either leaves a log that already has the leader's prefix untouched or makes it exactly that prefix |
| Repair.RepairIsBounded | raft.go:846-909 | Following the hints ends after at most one rejection more than the follower's uncompacted log has terms |
| Repair.RepairSucceeds | raft.go:914-947 | Where the hints end the follower accepts, and then agrees with the leader up to the leader's last index |
| Repair.ExchangesRepair | raft.go:949-1071 | The same for the two nodes exchanging requests and replies; afterwards the leader's match index is its last index, its next index is behind it, and the follower knows of everything that the leader knows to be committed |
| Repair.CompactionIsInvisible | raft.go:846-954 | From the snapshot point on, a compacted node and an uncompacted one end the same; only the hint after a conflict is raised to the first entry left |
| Repair.ScanIsExact | raft.go:1705-1733 | The scan ends at the largest index of the current term that the leader and the other voters known to hold it, together more than half, have; it stays exactly when there is none, and changes nothing else |
| Repair.HintIsExact | raft.go:846-909 | A probe is accepted if and only if the entry is there with its term; else the hint is behind the snapshot point, behind the end of the log, or the first index left of the conflicting term |
| CatchUp.MajorityCommitsAll | raft.go:1703-1733 | In a run, the scan of a leader whose whole log is held by a majority commits the whole log, which ends with an entry of its own term |
| CatchUp.HeardLeader | raft.go:834-844 | In a run, a node that hears from the leader of its term or a later one is then a follower of that term, and an older leader changes nothing |
| CatchUp.SnapshotIsInstalled | raft.go:1360-1483 | In a run, after the last chunk the receiver holds the snapshot's entries and acknowledges them; a node without them has then exactly the snapshot as log and state machine, and one with them loses nothing |
| CatchUp.SnapshotCatchesUp | raft.go:989-1071 | A follower that is behind the leader's snapshot holds the leader's log and knows what is committed after the snapshot and at most two more requests, and the leader knows it |
| CatchUp.ReachableBehind | raft.go:987-993 | In a run, a leader and a node whose next index it has compacted meet what catching up asks for |
| CatchUp.SnapshotSurvivesRestart | raft.go:1515-1578 | In a run, a node that takes a snapshot and restarts resumes with everything it had applied; any restart keeps log, snapshot, term and vote |
| Progress.VoteIsExact | raft.go:1077-1173 | The exact cases in which a vote is granted; every answer carries the voter's term after the step, a pre-vote changes nothing, and a request for a vote brings the voter to its term |
| Progress.RepliesCarryTerm | raft.go:814-844 | Every answer to a leader carries the later of the two terms, which is then its sender's |
| Progress.LaterTermStepsDown | raft.go:1029-1038 | A reply of a later term makes the node a follower of that term with a free vote; no other reply changes its term |
| Progress.ReplyMovesIndices | raft.go:1050-1071 | A success never takes back what the leader knows of a follower, a failure moves only the next index, and no other follower is touched |
| Progress.VoteIsCounted | raft.go:1280-1308 | A counted vote makes a pre-candidate a candidate, or a candidate or pre-candidate leader, exactly with a majority |
| Progress.CandidateIsElected | raft.go:1213-1309 | A candidate that more than half of the voters support leads the next term, and sends its no-op entry first |
| Progress.ElectionSucceeds | raft.go:1213-1309 | A follower or pre-candidate that more than half of the voters support leads the next term after one round of pre-votes and one round of votes |
| RaftNode.Raft.constructor | raft.go:309-342 | A node restored from log, snapshot and stored state is as after a restart |
| RaftNode.Raft.Bootstrap | raft.go:380-414 | Writes the bootstrap entry to an empty log, and refuses any other |
| RaftNode.Raft.BecomeFollower | raft.go:1902-1916 | Every caller passes a term at least the current one; refines the protocol's step-down, with term and vote stored |
| RaftNode.Raft.BecomeCandidate | raft.go:1866-1872 | Refines the protocol's candidacy, with term and vote stored |
| RaftNode.Raft.BecomeLeader | raft.go:1882-1897 | Refines the protocol's start of a leadership, with the no-op entry in the log file |
| RaftNode.Raft.Election | raft.go:1213-1227 | Refines the election tick |
| RaftNode.Raft.BuildVoteRequest | raft.go:1258-1270 | Builds the protocol's request from the compacted log |
| RaftNode.Raft.RequestVote | raft.go:1077-1173 | Refines the vote handler: same new node, same reply |
| RaftNode.Raft.HandleVoteReply | raft.go:1280-1308 | Refines the counting of votes, late real votes at a pre-candidate included |
| RaftNode.Raft.SubmitOperation | raft.go:716-747 | Appends the operation at the leader and notes its client; refuses elsewhere |
| RaftNode.Raft.BuildAppendEntries | raft.go:989-1023 | The loop over the compacted log builds the protocol's request: the log from the follower's next index to its end |
| RaftNode.Raft.HandleAppendReply | raft.go:1029-1071 | Refines the leader's handling of a reply |
| RaftNode.Raft.CheckPrevious | raft.go:846-909 | The checks and the conflict search give exactly the protocol's hint |
| RaftNode.Raft.FirstOfTerm | raft.go:896-907 | The loop stops at the first index of the conflicting term, and not below the snapshot point |
| RaftNode.Raft.MergeEntries | raft.go:914-947 | The loop over the compacted log does to the whole log what the specification function does |
| RaftNode.Raft.AppendEntries | raft.go:797-955 | Refines the AppendEntries handler: same new node, same reply |
| RaftNode.Raft.CountMatches | raft.go:1717-1727 | The loop over the follower map counts this node and exactly the other voters that match |
| RaftNode.Raft.CommitScan | raft.go:1703-1738 | The upward loop past entries that do not qualify ends at the largest index that does |
| RaftNode.Raft.ApplyCommitted | raft.go:1751-1803 | Applies every committed entry once and in order and gives each waiting client its answer |
| RaftNode.ApplyAllIsExact | raft.go:1753-1803 | Afterwards the state machine has got exactly the entries up to the commit index, and no client of those entries waits |
| RaftNode.AnswersAreExact | raft.go:1764-1781 | Applying answers exactly the clients that wait for an operation that becomes applied, each once, with its own operation, in the order of the log |
| RaftNode.Raft.TakeSnapshot | raft.go:1515-1570 | The snapshot takes the place of the applied entries; what the log stands for does not change |
| RaftNode.Raft.InstallSnapshot | raft.go:1314-1496 | Refines the snapshot handler: refuse, nothing new, keep the log, or replace log and state machine |
| RaftNode.Raft.HandleSnapshotReply | raft.go:1634-1662 | Refines the leader's handling of a snapshot reply, given whether the reply shows that the follower covers the snapshot |
| RaftNode.Raft.Restore | raft.go:309-342 | Starting again from disk is the protocol's restart |
| Simulation.Perform | raft.go:797-1803 | Every event of a run is performed by the handlers of the node it is at: the object ends in the run's next state of that node, with the messages sent and the answers given that the run says |
| FirstStart.StartNode | raft.go:380-414 | Opening and replaying an empty file and bootstrapping gives a valid node, which is the one that every run starts from |
| FirstStart.FixedWidthIsSound | log.go:115-139 | There is an encoding that round-trips, keeps entries without data short and gives smaller offsets no more bytes |
| NodeInCluster.ReachableNodeInOrder | raft.go:1753-1757 | In every reachable state the lookups of the commit scan, the apply loop and the snapshot are in range |
| NodeInCluster.ReachableMessagesFit | raft.go:1361-1363 | A snapshot in flight covers exactly the entries up to its index, and a vote in flight belongs to a round of its receiver |
| NodeInCluster.ReachablePair | raft.go:846-909 | In a run, a leader and any node that is not in a later term meet what the repair bound asks for, unless the leader has compacted past the node's snapshot point or next index |
| NodeInCluster.NoConflictWithCommitted | raft.go:868-879 | In a run, a request that is not of an older term never conflicts with what its receiver has committed and is accepted from the snapshot point up to the commit index; the rejection at the snapshot point is never taken |
| LogView.Compacted | log.go:326-361 | Moving the snapshot point up keeps what the log stands for |
| LogView.Located | log.go:251-268 | An index is contained exactly when it is above the snapshot point and not behind the end, and then the entry found is the one with that index |
| Votes.KeptUnlessForgetful | raft.go:836-844 | An event leaves every node's vote of its term in place if and only if it is not a same-term step-down of a node that has voted |
| Votes.KeptVotesAreSingle | raft.go:1129-1136 | While votes are kept, a granted vote is the only one in its term |
| Votes.UnforgetfulRunsObeyA2 | raft.go:836-844 | Runs without such a step down obey the assumption that votes are kept |
| Counterexamples.ForgottenVoteMakesTwoLeaders | raft.go:842-844 | A run that breaks only the assumption on kept votes has two leaders in one term |
| Counterexamples.LateRequestMakesTwoLeaders | raft.go:1240-1265 | A run that breaks only the assumption on when vote requests are built has two leaders in one term |
| Counterexamples.StaleReplyBreaksMatchIndex | raft.go:1029-1038 | A run that breaks only the assumption on replies has a leader whose match index is wrong |
| Conditions.ReplyKeepsExactly | raft.go:1029-1071 | In a state with the invariant, a reply leaves every match index at most what its follower took over in the leader's term, if and only if it is not a successful reply of another term that claims more |
| Conditions.SnapReplyKeepsExactly | raft.go:1634-1662 | The same for the reply to a snapshot |
| Conditions.VoteKeepsExactly | raft.go:1280-1289 | In every run of the protocol, counted votes stay votes of the round's term, if and only if the vote counted is for that term or its voter also voted so in that term |
| Conditions.TornInstallGrantsMore | raft.go:1138-1143 | After a crash between snapshot and log, a vote can be granted that would have been refused, if and only if the short log is behind the snapshot by last term and length |
| Frames.ParseFileThen | log.go:115-166 | Reading the frames of some entries followed by anything finds those entries first |
| Frames.ParseFile | log.go:209-222 | A written file reads back as the entries that were written |
| Frames.TornAppend | log.go:141-150 | A partly written frame is accepted exactly when none of it or exactly its length was written |
| Frames.OverlookedLength | log.go:212-222 | What is appended behind an overlooked length is read as its payload |
| Storage.ContainsIsExact | log.go:265-268 | Wrap-around of unsigned indices never makes the check wrong |
| Storage.PersistentLog.Replay | log.go:209-237 | Reads exactly the entries of the file, fails exactly when one is broken, and gives an empty file its placeholder |
| Storage.PersistentLog.GetEntry | log.go:251-263 | Finds the entry at the position of the index, and fails exactly when it is not contained |
| Storage.PersistentLog.AppendEntries | log.go:274-297 | Appends to the contents; offsets, file and position stay in step |
| Storage.PersistentLog.Truncate | log.go:299-324 | Keeps exactly the entries below the index; offsets, file and position stay in step |
| Storage.PersistentLog.Compact | log.go:326-361 | Keeps exactly the contents from the index on, with new offsets in a new file |
| Storage.PersistentLog.DiscardEntries | log.go:363-385 | Leaves only a placeholder with the given index and term |
| Storage.PersistentLog.Reopen | log.go:198-249 | Closing, opening and replaying gives back the same entries and file |
| Storage.GrownFromStart | log.go:343-352 | Rewriting the last entries of a log from the start of a file needs no more room than the log's file |
| Storage.FilePrefix | log.go:307-324 | Cutting the file at an entry's offset leaves the file of the entries before it |
| SnapshotTransfer.Sender.NextChunk | raft.go:1594-1628 | Sends the rest of the open file, or of the latest snapshot, from the current position, and marks it as last when it is short |
| SnapshotTransfer.Sender.HandleReply | raft.go:1634-1662 | Steps down for a later term, goes back to the follower's offset, or ends the transfer and advances the match index |
| SnapshotTransfer.Receiver.HandleChunk | raft.go:1332-1423 | Refuses old terms and what it covers, discards an older unfinished file, appends only at the expected offset, and installs the file with the last chunk |
| SnapshotTransfer.ChunkKeepsExactly | raft.go:1367-1412 | One chunk keeps the follower's files right if and only if it does not go to the unfinished file of a newer snapshot, or that file goes on as the chunk does |
| SnapshotTransfer.TransferIntegrity | raft.go:1361-1423 | In every run without such a chunk an unfinished file is a prefix of the leader's and an installed file is the leader's byte for byte |
| SnapshotTransfer.OldChunkSpoilsFile | raft.go:1367-1376 | A run that obeys A3 in which such a chunk leaves an installed file with the wrong content |
| SnapshotTransfer.AcknowledgedIsCovered | raft.go:1646-1662 | A reply of the follower's own term with the request's offset to the last chunk means that the follower covers the snapshot's index |
| SnapshotTransfer.MatchedIsCovered | raft.go:1657-1662 | In every run that obeys A3 the match index is never above what the follower has covered |
| SnapshotTransfer.RefusalCountsAsSuccess | raft.go:1634-1642 | A run that breaks only A3, in which a refusal advances the match index |
| SnapshotTransfer.TermsMeet | raft.go:1335-1356 | Every exchange brings both ends to the later of their terms, and ends the leadership of an earlier one |
| SnapshotTransfer.UnfinishedIsWholeOrEmpty | raft.go:1618-1628 | In every run without a misdirected chunk an unfinished file lacks either everything or only the mark of the last chunk |
| SnapshotTransfer.TransferCompletes | raft.go:1594-1662 | Without faults three exchanges are enough for a file of any length, and four from wherever the transfer was interrupted |
| SnapshotTransfer.RunCompletes | raft.go:1594-1662 | The same from any moment of such a run |
| SnapshotTransfer.LostLastReply | raft.go:1644-1655 | After a lost final reply the transfer is acknowledged if and only if the file is shorter than 32768 bytes |
| Membership.NewConfiguration | configuration.go:31-41 | Every member is a voter, and both maps have the same keys |
| Membership.Clone | configuration.go:44-57 | A copy has the members' keys in both maps, and equals the original exactly when that did |
| Membership.RestoreConfiguration | raft.go:328-368 | The last configuration of snapshot and log is used, and the one before it counts as committed |
| Membership.HasQuorum | raft.go:1961-1969 | The loop decides whether a count is more than half of the voters |
| Membership.Server.constructor | raft.go:460-463 | A started node has an entry for exactly the members |
| Membership.Server.AddServer | raft.go:566-623 | Succeeds, and fails with each error, in exactly the program's case; the new configuration is active and pending, and follower keys stay the member keys |
| Membership.Server.RemoveServer | raft.go:634-681 | Succeeds in exactly the program's case; nothing on the node changes, and nothing is pending |
| Membership.Server.NextConfiguration | raft.go:2001-2029 | Follower keys become the new member keys, members that stay keep their indices, and a removed leader steps down |
| Membership.Server.ApplyConfiguration | raft.go:1812-1819 | Moves on to a later configuration, where members that stay keep their indices and a removed leader steps down, and ignores one that is not later |
| Membership.Server.FallBack | raft.go:934-939 | A configuration that was cut off the log gives way to the committed one, with the followers and the leadership that go with it; any other stays |
| Membership.ChangesAreAdjacent | raft.go:601-667 | What the two operations submit differs in at most one voter from its base |
| Membership.AdjacentQuorumsIntersect | raft.go:1961-1969 | Any quorum of one configuration meets any quorum of an adjacent one |
| Membership.LeaderCountsItself | raft.go:1717-1727 | Commit quorums meet electing quorums if and only if the leader is a voter or the number of voters is even |
| Membership.TwoRemovals | raft.go:664-672 | Quorums of two removals from one base always meet if and only if the number of voters is odd |
| Operations.OperationManager.MarkAsVerified | operation.go:100-105 | Marks every pending read, whenever it was submitted |
| Operations.OperationManager.AppliableReadOnlyOperations | operation.go:107-119 | Hands out exactly the reads that can be applied, once and with their own clients, and keeps the others |
| Operations.OperationManager.NotifyLostLeadership | operation.go:121-130 | Refuses every waiting client exactly as often as it waits, and forgets them |

## Left out

- Membership changes inside the safety theorems: followers switch configurations only when they apply them, and a removal does not count as pending, so one change at a time is not kept. Quorums of adjacent configurations and the key sets are proved instead.
- Linearizable and lease-based reads: both rest on real time (a heartbeat round verifies reads submitted after it began; the lease is renewed when replies arrive).
- The single-voter shortcut of elections and commits, restarting the same object, and real time: when an election or a heartbeat starts (timeouts and tickers) and how long it takes.
- Safety.StateMachineSafety: holds under A5 and A7, no crash inside a handler and snapshots that arrive as they were sent.
- Safety.InitInv: starts with the bootstrap entry in every log (A6); the program writes it on one node and replicates it.
- RaftNode.Raft.constructor: takes a log and a snapshot that agree; recovering the configuration from them is Membership.RestoreConfiguration.
- RaftNode.Raft.Restore: takes the files as one consistent state, so a crash between replacing the snapshot and rewriting the log is not modelled; the configuration is Membership.RestoreConfiguration.
- RaftNode.Raft.BecomeFollower: drops the waiting clients; telling them is Operations.OperationManager.NotifyLostLeadership, and closing snapshot files is in SnapshotTransfer.
- RaftNode.Raft.MergeEntries: leaves out the fallback to the committed configuration after a truncation, which is Membership.Server.FallBack.
- RaftNode.Raft.AppendEntries: leaves out the same fallback.
- RaftNode.Raft.ApplyCommitted: applies a configuration entry without switching configurations; the switch is Membership.Server.ApplyConfiguration.
- RaftNode.Raft.InstallSnapshot: does not model the wait until the log is applied up to the snapshot, nor that lastIncludedIndex is moved before it (A5); the later compaction is the separate method CompactTo. Offsets and bytes are in SnapshotTransfer.
- RaftNode.Raft.HandleSnapshotReply: takes it as given whether the reply shows that the follower covers the snapshot; the program decides that by offset, bytes written and the mark of the last chunk, which SnapshotTransfer.AcknowledgedIsCovered justifies.
- SnapshotTransfer.Receiver.HandleChunk: ends with the installed file; what follows for the log is in RaftNode.Raft.InstallSnapshot.
- Storage.PersistentLog.Rewrite: stands for the temporary file and its rename, as one atomic replacement; directories and syncing are not modelled.
- Storage.PersistentLog.AppendEntries: asks that the file stays below 2^63 bytes (a write past that fails), and stores the entries as values; the program sets the offset in the caller's entry objects.
- Frames.Frame: leaves the encoding of an entry open; covered is any encoding that round-trips indices and terms below 2^64 and offsets below 2^63, stays below 2^31 bytes, and does not need more bytes for a smaller offset.
- Terms and indices are unbounded in the cluster. The check of contained indices has 64-bit wrap-around; the log and the node class store indices and terms below 2^64 only, and a log file stays below 2^63 bytes (running out of either is not modelled).
- The state machine is the sequence of entries applied to it; the client's state machine is any function of that sequence.
- Transport, message encoding, futures, logging, options, snapshot directories and the metadata files.
