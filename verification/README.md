# A model of the Raft key-value store

A cluster of nodes keeps one key-value map by the Raft protocol (Ongaro and Ousterhout, "In Search of
an Understandable Consensus Algorithm", extended version, sections 5.2 to 5.4 and 7). This project
models it in three parts and proves what they keep.

**The protocol.** A node is a term, a vote, a role, a log behind an optional snapshot, commit and apply
indices, and for a leader `nextIndex` and `matchIndex`. `Handlers` gives what each handler and each
local action does to one node. `RaftNodes` is the same node as an object with mutable fields, with the
election loop, the replication loop, the append loop and the apply loop, each method proved against the
functions of `Handlers`. `Protocol` makes a cluster of such nodes a state machine of twenty-one kinds of
step, with a growing set of sent messages: a message may be handled late, more than once or never, a
sender may give up on a reply, an AppendEntries request may be refused unread, as the code does with one
longer than its receive buffer of 8191 bytes, and a node may crash at any moment and restart from its
disk. `History` records, beside a run and never read by it, who led which term with which log, who voted
for whom with which log, and who acknowledged what. On top of that:

- `ElectionSafety`, `Votes`: at most one leader a term over all runs, and how two votes in one term
  can come about, given that an AppendEntries request of the same term resets a candidate's vote.
- `LogMatching`, `SuccessReply`: two logs agree up to any entry they share, and what exactly a success
  reply tells, given that a batch is skipped as a whole when its first entry is present.
- `LogSteps`, `Ballots`, `Acknowledged`, `AckSteps`, `Completeness`: a committed entry is in the log of
  every later leader, with nodes crashing at any moment, in the runs without compaction in which no
  skipped batch held an entry its receiver lacked.
- `Confirmation`, `MachineSafety`: in those runs, if no follower commits an entry that the request does
  not confirm, no two nodes apply different commands at one index; and when exactly a request confirms
  what it makes a follower commit.
- `Scenarios`, `FailingRuns`: whole runs of three nodes in which one of these conditions fails, and the
  result with it.
- `AppendOnly`, `ApplyOrder`: a leader's log only grows at its end; entries are applied in order without
  a gap.
- `AppendText`, `JsonText`, `JsonDetermines`, `JsonCut`, `CatchUp`: a request's text determines it and is
  read whole exactly if it fits the receive buffer, and heartbeats alone bring a follower up to date exactly
  if the requests in its way do.
- `Replies`, `PeerKnowledge`: what the answer to a request tells its sender, whom a node names as leader,
  and that a leader never takes a peer to have confirmed more than it acknowledged.
- `Answers`: what a client is told, by the log: its own command's result after all commands before it.
- `Uninterrupted`: the loops of the node object, when nothing interrupts them, are sequences of that
  node's steps.

**The compacted log and the snapshot path.** `Compaction` shows that the snapshot and the suffix behind
it stand for one uncompacted log, for readers and for the AppendEntries handler, `LeaderView` shows it for
what candidates and leaders send, with `BehindPeers` for the peers that are behind the snapshot, and `AutoCompaction` says when a node compacts by itself and what is left.
`Base64`, `SnapshotCodec` and `SnapshotTransfer` follow a snapshot from the leader's map through bytes,
512-byte chunks and base64 text (section 4 of RFC 4648) to the follower's map, and `TransferDone` goes on to
what the leader then knows and to the next heartbeat. `TransferSteps` ties both ends to the steps of the
protocol.

**The durable store.** `WriteAheadLog`, `KeyValueStore`, `Commands`, `CommandChain` and `Recovery`:
record framing, replay, the text command codec, torn files, and when recovering any number of times
gives the store of one clean application. `RecoverySteps` ties that to the steps of a node,
`Truncation` says what a truncated log keeps and replays, and `TornTail` what becomes of records written
behind a torn one.

Named assumptions of the protocol model:

- *AtomicHandlers*: a handler is one step, with the step-down it may do inside it, and so is the part of
  a loop between two remote calls. Locks are not modelled; `becomeFollower` is taken as part of the
  critical section it is called from.
- *GuardedContinuations*: the rest of an election or of a client call runs only while the node still has
  the role and term it started with, and the reply to a heartbeat or a snapshot chunk is taken only while
  its sender leads the term it sent it in. The code does not look again at src/raft_node.cpp:683-695, in
  the loop at src/raft_node.cpp:839-995, at src/raft_node.cpp:519-560 and at src/raft_node.cpp:456-478.
- *OwnStore*: each node has a store of its own; the code has one for the process (src/kvstore.cpp:5).

Any AppendEntries request may be refused, and any may be handled, whatever its length, so that under
these assumptions, and apart from the crashes named under "Left out", the runs of the model include those
of the code. To a vote request or a chunk a refusal is like a lost reply.

Where the code does something else than its own readme suggests, the model follows the code. The readme
has an entry committed once a majority acknowledged it, but an acknowledgement need not mean that the
entry was stored (`SuccessReply.SuccessWithoutEntries`), so completeness is conditional
(`FailingRuns.SkippedBatchLosesCommit`), and a follower may commit an entry of its own in place of the
leader's (`FailingRuns.UnconfirmedCommitDiverges`). A lagging follower need not catch up when commands are
long (`CatchUp.LongCommandsNeverArrive`). The readme says that the write-ahead log guarantees recovery;
that depends on the keys, for which `Recovery.RecoveryConverges` gives the exact condition, and on no
record being torn (`TornTail.TornPutInvents`). Entry 0 is never applied, because indices and `lastApplied` both start at 0.

## Model

| member | source | states |
|---|---|---|
| ElectionSafety.OneLeaderPerTerm | src/raft_node.cpp:586-706 | Election Safety: two nodes leading one term at any two moments of any run, with compaction, snapshot transfers, lost replies and crashes, are the same node |
| ElectionSafety.WinnerIsFirst | src/raft_node.cpp:606-695 | a candidate that counted a majority is the first ever to lead its term: the votes it counted are from distinct nodes and meet every other majority |
| ElectionSafety.VotersApart | src/rpc_server.cpp:210-223 | nobody in the majority of a term's leader is among the voters of another candidate of that term, despite the vote reset |
| ElectionSafety.AppendSettlesOrDemotes | src/rpc_server.cpp:257-275 | AppendEntries changes term, vote and role only by stepping down, to a higher term or, for a candidate, in its own term with the vote cleared; a stale one changes nothing |
| ElectionSafety.StepKeeps | src/raft_node.cpp:586-706 | every step keeps the election invariant: votes kept for the term, one vote a voter, counted votes backed by replies, leaders on record with a majority |
| ElectionSafety.RunKeeps | src/persist_functions.cpp:6-44 | the election invariant holds throughout every run, restarts from the persisted term and vote included |
| Quorums.QuorumsMeet | src/raft_node.cpp:683 | two sets that each hold more than half of the cluster share a node |
| Votes.SecondVote | src/rpc_server.cpp:188-229 | if a node votes for two candidates in a term, the first vote was for itself, it had given that candidacy up in between, it leads that term at no moment of the run, and no third vote follows |
| Votes.PhaseRun | src/raft_node.cpp:328-353 | the order in which a node's vote in one term can change over a run, and that a vote for another node stays for the term |
| Votes.AbandonedBetween | src/rpc_server.cpp:267-272 | between a candidacy and a vote for another in the same term there is a moment without a vote |
| LogMatching.LogsMatch | src/rpc_server.cpp:284-397 | Log Matching: in every compaction-free run two logs of whatever nodes and moments, in memory or on disk, that share an entry's index and term are identical up to it, and every entry's index is its position |
| LogMatching.TakesFromLeader | src/rpc_server.cpp:351-397 | a request that passes the check leaves the receiver's log as it was, or makes it the sender's log up to the last entry sent |
| LogMatching.InsertTakes | src/rpc_server.cpp:362-396 | erasing at a conflict and appending what is missing gives exactly the sender's log up to the last entry sent |
| LogMatching.AppendTakesLog | src/rpc_server.cpp:284-399 | the handler leaves, in memory and on disk, exactly what check and insertion make of the log, whatever it commits and applies |
| LogMatching.RequestOk | src/raft_node.cpp:843-857 | what a leader sends is a stretch of the log on record for its term, with the right previous term |
| LogMatching.StepKeepsLogs | src/raft_node.cpp:830-857 | every step keeps all logs prefixes of the logs of the leaders that made their entries |
| LogMatching.RunGrows | src/raft_node.cpp:830-836 | over a compaction-free run the recorded log of each term's leader only grows at its end |
| SuccessReply.SuccessGuarantees | src/rpc_server.cpp:284-397 | in compaction-free runs a success reply means agreement with the sender's log through prevLogIndex, one entry further if any were sent, and through the last entry sent if and only if the follower's log ended at or conflicted after prevLogIndex or already held the last entry |
| SuccessReply.SuccessWithoutEntries | src/rpc_server.cpp:370-377 | a concrete request that is answered with success and leaves the follower without the second entry sent |
| Ballots.RunKeepsBallots | src/rpc_server.cpp:209-223 | throughout a compaction-free run, crashes included, every counted vote was cast by a voter whose log at that moment was no more up to date than the winner's |
| Ballots.WinnersVoter | src/raft_node.cpp:617-622 | each voter of a winning candidate judged the very log the candidate still has |
| AckSteps.TakenHolds | src/rpc_server.cpp:351-397 | a non-stale request keeps an acknowledged entry in the receiver's log, unless its sender or an earlier leader was elected without it |
| AckSteps.RunKeepsAcks | src/raft_node.cpp:839-995 | throughout a compaction-free run in which skipped batches held nothing new, crashes included, acknowledged entries stay saved unless a leader elected later lacked them, success replies are backed by acknowledgements, and client calls count no more successes than acknowledgements |
| Completeness.MajorityPassesOn | src/raft_node.cpp:1001-1005 | an entry that a majority acknowledged is in the log with which every later leader was elected |
| Completeness.UpToDateHolds | src/rpc_server.cpp:211-216 | a log at least as up to date as one that holds the entry holds it too, if every leader in between had it |
| Completeness.LeaderCompleteness | src/raft_node.cpp:1001-1005 | Leader Completeness: in runs without compaction in which skipped batches held nothing new, with crashes and restarts at any moment, a leader's log up to the entry it commits is a prefix of the log of every leader of every later term, at any moment of the run |
| AppendOnly.LeaderAppendOnly | src/rpc_server.cpp:362-369 | Leader Append-Only over all runs: while a node leads a term its log grows only at the end by entries of that term at their own indices; with compaction, if what it applied lies inside its log when it starts |
| AppendOnly.LeaderLogPrefix | src/raft_node.cpp:830-836 | while it takes no snapshot, a leader's log at one moment is a prefix of its log at every later moment of its term |
| AppendOnly.LeaderTakesNoEntries | src/rpc_server.cpp:257-275 | an AppendEntries request that a leader handles without losing its leadership is stale and changes nothing of the node |
| AppendOnly.CompactContinuesExactly | src/raft_node.cpp:259-281 | of a log aligned with its indices compaction moves no entry if and only if what was applied lies inside the log |
| AppendOnly.RunSnapOk | src/raft_node.cpp:122-172 | over all runs the snapshot in memory is the one on disk, ends no later than what is applied, and a node's commit index is never ahead of what it applied |
| ApplyOrder.AppliedInOrder | src/rpc_server.cpp:402-421 | in every run without restart of the node or snapshot sent to it, leader loop and follower loop together apply index 1, 2, ... lastApplied, each once and found in the log, and the store is the fold of the commands read |
| ApplyOrder.CommitApplies | src/raft_node.cpp:1006-1020 | the leader's loop reads consecutive indices, all in its log, and applies exactly what it reads |
| ApplyOrder.AppendApplies | src/rpc_server.cpp:402-421 | the follower's loop does the same, and a request that commits nothing applies nothing |
| MachineSafety.StateMachineSafety | src/rpc_server.cpp:402-421 | State Machine Safety: two nodes never apply different commands at one index, not even after restarts, in runs that meet the conditions of Leader Completeness and in which no follower commits an entry that the request does not confirm |
| MachineSafety.StoresAgree | src/rpc_server.cpp:402-421 | in those runs two nodes that started from equal stores, did not restart and have applied equally far have equal stores |
| Confirmation.ConfirmedExactly | src/rpc_server.cpp:402-404 | what a request makes a follower commit agrees with every log it can have come from if and only if the last entry committed is confirmed: covered by the check, of the same term as the entry sent at its index, or of the sender's own term |
| Confirmation.SenderCouldSend | src/rpc_server.cpp:284-397 | in compaction-free runs the sender's log is such a log, if it holds the entry at the commit index sent |
| FailingRuns.UnconfirmedCommitDiverges | src/rpc_server.cpp:402-421 | State Machine Safety fails without that condition: a run without compaction and crashes in which skipped batches held nothing new, and two nodes apply different commands at index 20, for any two commands |
| FailingRuns.SkippedBatchLosesCommit | src/rpc_server.cpp:370-377 | Leader Completeness fails without its condition on skipped batches: a run without compaction and crashes in which a node commits three entries and the leader of the next term has only the first |
| FailingRuns.LeadsBehindApplied | src/raft_node.cpp:259-281 | Leader Append-Only fails without its condition on what was applied: a run that ends with a leader that has applied more than its log holds, of whose log a snapshot moves the entries |
| CatchUp.CatchesUpExactly | src/rpc_server.cpp:168-177 | whichever requests the receiver lets through, some number of heartbeat rounds leaves the follower with the leader's whole log if and only if, with c the length of the common prefix, the batches from c on, each behind the one before, all get through and, where nextIndex starts below c, so does one in every twenty positions from there to c |
| CatchUp.CatchUp | src/raft_node.cpp:491-560 | under that condition the heartbeat loop ends, from any nextIndex up to the log size, with the follower holding the leader's whole log, and has changed nothing on the leader but what it knows about its peers |
| CatchUp.Advance | src/raft_node.cpp:551-560 | each round enlarges the common prefix, or leaves the range of skipped batches, or gets further in it, or comes closer to the common prefix, refused requests included |
| CatchUp.LongCommandsNeverArrive | src/rpc_server.cpp:168-177 | the failing input: if the leader's first twenty commands have 400 characters each, no number of rounds brings them to a follower with an empty log |
| CatchUp.ShortCommandsArrive | src/raft_node.cpp:491-560 | with commands of at most 340 characters, escapes included, and 32-bit numbers, every follower catches up |
| CatchUp.ShortTakesNoSnapshot | src/rpc_server.cpp:423-470 | a round is what the whole handler does, compaction included, while both logs are below the snapshot threshold |
| AppendText.LongDoesNotFit | src/rpc_server.cpp:57-67 | the key-sorted JSON text of a request with nineteen entries of 400 characters exceeds the 8191 bytes read |
| AppendText.ShortFits | src/rpc_server.cpp:57-67 | the text of a request with at most twenty entries of at most 340 characters, escapes included, does not |
| JsonDetermines.RequestDetermined | src/raft_node.cpp:855-857 | two AppendEntries requests with one JSON text are one request, whatever characters their commands contain |
| JsonDetermines.ChunkDetermined | src/raft_node.cpp:918-940 | and so are two chunk messages, whose base64 text holds no quote |
| JsonCut.CutIsOpen | src/rpc_server.cpp:168-185 | the text of a request, cut anywhere short of its end, leaves a bracket or a string open and so is no JSON text, whatever the commands contain; the whole text is closed |
| JsonCut.ReadsWholeExactly | src/rpc_server.cpp:168-185 | what the receiver reads into 8191 bytes is closed text if and only if the request fits |
| CatchUp.RoundLog | src/rpc_server.cpp:284-397 | a round adds the batch if its request gets through and nextIndex is the length of the common prefix, and otherwise leaves the follower's log as it was |
| CatchUp.CheckIsCommon | src/rpc_server.cpp:284-348 | the consistency check passes exactly when nextIndex lies within the common prefix |
| Compaction.ReadersSeeFull | src/raft_node.cpp:173-249 | size, terms from the snapshot on and entries behind it are those of the uncompacted log |
| Compaction.CompactRepresents | src/raft_node.cpp:132-144 | taking a snapshot leaves the log it stands for unchanged |
| Compaction.CompactionInvisible | src/raft_node.cpp:122-154 | compaction leaves getLogSize, getLogTerm from the snapshot on and getLogEntries behind it unchanged if and only if lastApplied lies inside the log |
| Compaction.CrashBetweenSaves | src/raft_node.cpp:142-156 | a restart that finds the new snapshot beside the uncut log reads a log longer by the entries newly covered, and still stands for the same log if and only if there are none |
| LeaderView.VoteNamesLastEntry | src/raft_node.cpp:617-622 | a candidate with a snapshot names the index and term of the last entry of the whole log, compacted or not |
| LeaderView.RequestsSame | src/raft_node.cpp:491-514 | the peers that are not behind the snapshot get exactly the heartbeats and client requests that the node would send with nothing compacted |
| LeaderView.HeartbeatNames | src/raft_node.cpp:491-514 | a heartbeat carries the twenty entries of the whole log from the peer's next index on, with the index and term of the entry before them |
| LeaderView.ClientRequestNames | src/raft_node.cpp:844-857 | a client request carries the entries of the whole log from the peer's next index through the client's entry |
| LeaderView.WinExpects | src/raft_node.cpp:683-706 | a new leader takes every peer to have the whole log, snapshot included, and to have confirmed nothing |
| LeaderView.AppendExtends | src/raft_node.cpp:828-836 | a client's entry goes to the end of the whole log, with its index there |
| LeaderView.VoterJudgesWholeLogExactly | src/rpc_server.cpp:211-216 | a voter judges candidates as by its whole log if and only if it has no snapshot |
| LeaderView.VoterForgets | src/rpc_server.cpp:211-216 | the failing input: with a snapshot it takes a candidate for up to date that is as long as its suffix |
| BehindPeers.BehindRequestNames | src/raft_node.cpp:844-857 | to a peer behind the snapshot a client request carries the whole log behind the snapshot through the client's entry, and names term 0 |
| BehindPeers.BehindRefusedExactly | src/rpc_server.cpp:284-348 | a receiver whose entries have positive terms refuses that request unless the sender expects it to have nothing |
| BehindPeers.BehindLeavesGap | src/rpc_server.cpp:344-397 | the failing input: expected to have nothing, an empty follower takes it, and its log then lacks what the snapshot covers, with no entry at its index |
| AutoCompaction.AppendCompactsExactly | src/rpc_server.cpp:402-470 | a follower takes a snapshot if and only if it commits on the request and its log then holds 3000 entries or more; the snapshot is at what it applied, with that entry's term and the store, and disk and next indices agree |
| AutoCompaction.AppendCutsLog | src/rpc_server.cpp:431-470 | its log, in memory and on disk, is then exactly the entries behind what it applied |
| AutoCompaction.CommitCompactsExactly | src/raft_node.cpp:1005-1062 | a leader that commits does the same, and below 3000 entries keeps snapshot and log |
| Compaction.EraseIsFilter | src/raft_node.cpp:259-281 | the arithmetic prefix erase equals the filter by index if and only if the log is empty or the cut is not beyond its end |
| Compaction.TruncateLog | src/snapshot.cpp:25-36 | the loop that keeps the entries behind an index computes the filter by index |
| Compaction.CompactionRefines | src/rpc_server.cpp:284-421 | for every snapshot and every request from its last entry on, the handler on the suffix gives the reply, term, vote, commit index, store, applied entries and resulting log of the handler on the whole log |
| Compaction.InsertSame | src/rpc_server.cpp:351-397 | skip, erase and append on the suffix are those on the whole log |
| Compaction.AlignedKept | src/rpc_server.cpp:380-396 | a request with consecutive indices keeps every entry at its own index behind the snapshot |
| Compaction.BehindSnapshotRejected | src/rpc_server.cpp:287-294 | a request from before the snapshot's last entry is turned down and changes no entry |
| Compaction.FromStartDiffers | src/rpc_server.cpp:344-348 | with a snapshot, a request with prevLogIndex -1 passes unchecked and leaves another log than without one |
| SnapshotCodec.SerializeRoundTrip | src/raft_node.cpp:787-811 | reading back a serialized snapshot gives its index, term and map, for every order the map is iterated in |
| SnapshotCodec.SerializeBegins | src/raft_node.cpp:787-798 | index, term and number of pairs stand in front, four bytes each |
| SnapshotCodec.SerializeSnapshot | src/raft_node.cpp:787-811 | the writing loop produces the serialized form |
| SnapshotCodec.DeserializeSnapshot | src/rpc_server.cpp:19-46 | the reading loop computes the snapshot in a buffer, or that there is none |
| SnapshotTransfer.TransferInstalls | src/rpc_server.cpp:647-714 | whatever the follower's log, state and leftover buffer, the messages of one transfer handled in order install exactly the leader's index, term and map |
| SnapshotTransfer.Buffered | src/rpc_server.cpp:657-684 | part-way the follower changed nothing but term and buffer, and the buffer is what came so far, whatever it held before |
| SnapshotTransfer.SendChunks | src/raft_node.cpp:398-486 | the chunk loop sends the transfer's messages in order until one is not accepted, in no more turns than chunks, and completes exactly if all are accepted |
| SnapshotTransfer.MessagesFit | src/raft_node.cpp:909-940 | with 32-bit header fields and under 2^31 bytes every message is at most 2040 characters long, so the size is never halved |
| SnapshotTransfer.BuildMessage | src/raft_node.cpp:911-940 | the next message, its last one marked as done, with the too-long branch shown unreachable |
| SnapshotTransfer.ChunksCover | src/raft_node.cpp:907-915 | all chunks, decoded and in order, are every byte once |
| TransferDone.MessageSays | src/raft_node.cpp:407-431 | chunk k of a snapshot lies at offset 512*k, decodes to those bytes, names the snapshot and the number of chunks, and is marked as done exactly if it is the last |
| TransferDone.ChunkReplyTells | src/rpc_server.cpp:647-716 | a chunk is accepted if and only if it is not of an earlier term, and the reply carries the receiver's term |
| TransferDone.LeaderLearns | src/raft_node.cpp:456-476 | the leader learns from the accepted last chunk, and from no other, that the peer has the snapshot |
| TransferDone.LeaderKnowsPeer | src/raft_node.cpp:470-476 | once the last chunk is answered, the next index is the size of the peer's log, the match index one less, and the peer is behind the snapshot no longer |
| TransferDone.TransferGoesOn | src/raft_node.cpp:388-514 | the next heartbeat then passes the check at the peer, which ends with the leader's log up to twenty entries behind the snapshot |
| TransferSteps.TransferIsSteps | src/raft_node.cpp:392-486 | a transfer that nothing interrupts is a sequence of the leader's steps, for any answers of the peer, and ends as `SendSnapshot` does |
| TransferSteps.TransferDelivers | src/raft_node.cpp:392-486 | with no message lost and a peer in no higher term, sending, handling and answering the chunks in turn leaves the peer as after all messages and the leader knowing that it has the snapshot |
| TransferSteps.DeliveryIsSteps | src/rpc_server.cpp:647-716 | each of these rounds is three steps of the protocol |
| Base64.RoundTrip | src/decode_encodebase64.cpp:8-43 | decoding what was encoded gives the same bytes, for every byte sequence |
| Base64.EncodeLength | src/decode_encodebase64.cpp:27-43 | the text has 4*ceil(n/3) characters |
| Base64.Base64Encode | src/decode_encodebase64.cpp:27-43 | the accumulator loop computes the encoding for every accumulator width from 12 bits up and for an unbounded one |
| Base64.Base64Decode | src/decode_encodebase64.cpp:8-25 | the decoding loop does, stopping at the first character outside the alphabet |
| Base64.ReadBack | src/decode_encodebase64.cpp:31-35 | only the low bits of the accumulator are read back, so wrapping does not show |
| WriteAheadLog.RecordRoundTrip | src/log_entry.h:14-43 | a record written is read back, and nothing that follows is consumed |
| WriteAheadLog.TornRecord | src/log_entry.h:26-43 | a record cut anywhere short of its end is not read |
| WriteAheadLog.ReadPrefix | src/wal.cpp:14-21 | of any byte prefix of the file exactly the complete records are read |
| WriteAheadLog.FileRoundTrip | src/wal.cpp:6-39 | reading a file gives the records written to it |
| WriteAheadLog.ToBinary | src/log_entry.h:14-25 | the writer produces the record's encoding |
| WriteAheadLog.Wal.constructor | src/wal.cpp:6-22 | opening caches the records of the file up to the first torn one and takes the last index |
| WriteAheadLog.Wal.AppendEntry | src/wal.cpp:24-39 | one record with the next index is added to the cache and to the file |
| WriteAheadLog.Wal.TruncateUpTo | src/wal.cpp:47-76 | the records behind the index stay, the file is rewritten to them, and the last index is theirs |
| Truncation.StaysExactly | src/wal.cpp:47-76 | a truncation keeps exactly the records whose index is greater, compared as unsigned numbers |
| Truncation.OrderStays | src/wal.cpp:54-58 | and keeps them in their order |
| Truncation.SuffixStays | src/wal.cpp:47-76 | of records with consecutive indices exactly the suffix behind the index stays |
| Truncation.ReopeningAfterTruncation | src/wal.cpp:47-76 | after any puts, removes and reopenings, truncation keeps the map, and reopening then replays exactly the writes behind the index, in their order |
| KeyValueStore.ReopeningRestores | src/kvstore.cpp:7-76 | after any puts, removes and reopenings with non-empty keys, for puts free of '=', the file is the encoding of the cache, the map is the one described and reopening changes nothing |
| KeyValueStore.TornFileRestoresPrefix | src/kvstore.cpp:7-49 | for any byte prefix of the file the recovered map is the map after some prefix of the operations |
| KeyValueStore.PutReplaysExactly | src/kvstore.cpp:14-34 | replaying a PUT record is the put it came from, on every map, exactly for non-empty keys without '=' |
| KeyValueStore.DeleteReplaysExactly | src/kvstore.cpp:14-44 | replaying a DELETE record is the removal, on every map, exactly for non-empty keys |
| KeyValueStore.ReplayPut | src/kvstore.cpp:14-34 | what replaying a PUT record does for any key: it sets what lies before the first '=', or nothing if that is empty |
| KeyValueStore.OtherTextsKeep | src/kvstore.cpp:11-48 | of the texts a record may hold, only a PUT with a non-empty key before an equals sign and a DELETE with a key change the map |
| KeyValueStore.KVStore.constructor | src/kvstore.cpp:7-49 | the store opens its log and replays every record into an empty map |
| KeyValueStore.KVStore.Replay | src/kvstore.cpp:11-48 | taking one record's text apart changes the map as that text says |
| KeyValueStore.KVStore.Put | src/kvstore.cpp:55-60 | logged first, then the map is updated |
| KeyValueStore.KVStore.Remove | src/kvstore.cpp:71-76 | logged first, then the key is removed; tells whether it was there |
| KeyValueStore.KVStore.TruncateLog | src/kvstore.cpp:79-81 | truncation leaves the map and cuts cache and file |
| TornTail.TornTailSwallows | src/log_entry.h:26-43 | a record torn behind its header takes in as many of the bytes written behind it as it lacks, and the rest is read on from there; with fewer bytes nothing is read |
| TornTail.TornPutInvents | src/wal.cpp:24-39 | so a first PUT torn inside its key, one more PUT of the right length and a reopening leave a key that nobody set and not the key set last, though both keys are free of '=' |
| Commands.CommandRoundTrip | src/raft_node.cpp:742-747 | the logged text reads back as the same triple exactly for the codable triples |
| CommandChain.ChainKeepsEffect | src/raft_node.cpp:735-785 | for a non-empty key without white space and a newline-free value the command reads back, and the record it leaves replays to the same effect on every map exactly if it is a DELETE or its key has no '=' |
| Recovery.RecoveryConverges | src/raft_node.cpp:47-71 | with any crashes and snapshots at any points, the store of a node that regained the most it ever applied is that of one clean application, if and only if every key a replay would invent is set or removed by some entry |
| Recovery.PlainKeysRecover | src/kvstore.cpp:7-49 | keys without '=' always meet that condition |
| Recovery.RunSafe | src/raft_node.cpp:1006-1020 | in every run of a log that meets that condition up to the entry reached, the keys that the entries still to be applied do not touch are already as they will end |
| Recovery.TwiceInvents | src/kvstore.cpp:22-33 | otherwise one crash after the last entry leaves a key that no entry ever set |
| Recovery.RecordsReplay | src/kvstore.cpp:7-49 | replaying the records that changes left is rereading the changes |
| Recovery.RecoveredStore | src/raft_node.cpp:1006-1020 | the recovered store is the fold of the logged commands 1 to lastApplied |
| RecoverySteps.RunTracks | src/raft_node.cpp:41-71 | over any applications, snapshots and crashes the node's own steps and the recovery machine stay in agreement on applied index, store and snapshot |
| RecoverySteps.NodeRecovers | src/raft_node.cpp:47-71 | so a node that regained the most it ever applied has the store that its log, applied once, gives |
| Uninterrupted.ElectionIsSteps | src/raft_node.cpp:586-723 | for any replies of the peers, an election that nothing interrupts is a sequence of that node's steps and ends in the state that `StartElection` ends in |
| Uninterrupted.HeartbeatsAreSteps | src/raft_node.cpp:382-568 | so is a round of heartbeats, for any replies, and it ends as `SendHeartbeats` does |
| Uninterrupted.CommandIsSteps | src/raft_node.cpp:828-1084 | and so is a client command, whatever the peers answer or fail to answer, and it ends as `HandleClientCommand` does |
| Replies.VoteReplyTells | src/rpc_server.cpp:188-229 | a vote is given if and only if the request is not stale, the vote is free or the candidate's, and its log is up to date; the reply carries the higher of the two terms, in which the voter then is, and logs and store stay |
| Replies.StaleCandidateFollows | src/raft_node.cpp:645-672 | so a stale candidate that reaches a voter ends up following in the voter's term |
| Replies.AppendReplyTells | src/rpc_server.cpp:237-275 | an AppendEntries reply carries the receiver's term, success means that the request was not stale, and the receiver names its sender as leader |
| Replies.HeartbeatTeaches | src/raft_node.cpp:528-560 | a higher term ends the leadership; success moves the peer's indices just behind and onto the last entry sent; failure moves the next index back by one |
| Replies.CallTeaches | src/raft_node.cpp:869-891 | the same for the reply to a client request, onto the client's entry |
| Replies.RestartForgets | src/raft_node.cpp:41-71 | a restarted node has what it saved and knows no leader and nothing of its peers |
| PeerKnowledge.RunNames | src/rpc_server.cpp:257-275 | over all runs the leader a node names has led a term up to the node's, and a leader names itself |
| PeerKnowledge.RunMatchesAcked | src/raft_node.cpp:551-560 | over the runs of `AckSteps.RunKeepsAcks`, up to a peer's match index the peer has acknowledged every entry of the leader's own term |
| Answers.AnswerIsHeard | src/raft_node.cpp:735-785 | after any commands a GET is told what the last command on its key put, or that there is none; a DELETE is told OK exactly if there was one |
| Answers.ToldExactly | src/raft_node.cpp:828-1084 | a client call is told that the leader stepped down if some peer is in a higher term, else that it is not committed without a majority, and else the result of its own entry after all entries before it in the log |
| Answers.OlderNotCommitted | src/raft_node.cpp:1001-1005 | an entry of an earlier term is not committed by counting, whoever takes it, and nothing is applied |
| Answers.CommitsOwnTerm | src/raft_node.cpp:1001-1005 | what a leader commits by counting is of its own term |
| Answers.GetAfterPut | src/raft_node.cpp:764-769 | a GET whose key was last put is told the value put, for every key and value that the command text can carry |
| Answers.GetAfterDelete | src/raft_node.cpp:764-776 | and one whose key was last deleted that there is none |
| RaftNodes.RaftNode.TriggerSnapshot | src/raft_node.cpp:122-172 | a snapshot at lastApplied, unless the log is empty |
| RaftNodes.RaftNode.BumpNextIndex | src/raft_node.cpp:148-154 | every nextIndex that the snapshot covers moves behind it, the others stay |
| RaftNodes.RaftNode.ApplyToStateMachine | src/raft_node.cpp:735-785 | PUT sets and is told OK, GET is told the value or that there is none, DELETE removes and tells whether there was one, anything else changes nothing |
| RaftNodes.RaftNode.CommitAndApply | src/raft_node.cpp:1005-1020 | the loop applies every index up to the commit index, in order, and returns the result of the last command |
| RaftNodes.RaftNode.HandleRequestVote | src/rpc_server.cpp:188-229 | the new state and reply of a vote request |
| RaftNodes.RaftNode.AskForVotes | src/raft_node.cpp:606-675 | the loop over the peers stops at the first higher term, to which the candidate steps down, and otherwise counts the grants |
| RaftNodes.RaftNode.StartElection | src/raft_node.cpp:586-723 | an election's outcome is decided by the replies: step down, lead with a majority, or stay a candidate |
| RaftNodes.RaftNode.CheckPrevious | src/rpc_server.cpp:284-348 | the consistency check over snapshot and suffix |
| RaftNodes.RaftNode.InsertEntries | src/rpc_server.cpp:351-397 | erase, skip or append, in place, as the insertion function says |
| RaftNodes.RaftNode.HandleAppendEntries | src/rpc_server.cpp:257-480 | the new state and reply of an AppendEntries request, compaction of a long log included |
| RaftNodes.RaftNode.HandleInstallSnapshot | src/rpc_server.cpp:647-716 | the new state and reply of one chunk |
| SnapshotCodec.WriteAtGives | src/rpc_server.cpp:675-684 | a chunk written anywhere stands at its offset, around it stays what was there, and a gap before it is zeros |
| RaftNodes.RaftNode.WriteChunk | src/rpc_server.cpp:675-684 | resizing and copying the chunk in place gives that buffer |
| RaftNodes.RaftNode.SendHeartbeats | src/raft_node.cpp:382-568 | the loop over the peers sends each its batch, takes the replies that come, and stops at the first higher term |
| RaftNodes.RaftNode.SendSnapshot | src/raft_node.cpp:392-486 | the chunk loop runs, and exactly if every chunk is accepted the peer's indices move to the snapshot's end |
| RaftNodes.RaftNode.HandleClientCommand | src/raft_node.cpp:828-1084 | a client call's outcome from the peers' replies: every peer is tried once, the entry is committed and applied exactly with a majority and in the leader's present term, and the client gets the last command's result or the reason why not |

## Left out

- Completeness.LeaderCompleteness: is stated for runs without compaction in which skipped batches held nothing new, because a batch is skipped as a whole (src/rpc_server.cpp:370-377, `FailingRuns.SkippedBatchLosesCommit`) and voters with a snapshot compare with their suffix only (src/rpc_server.cpp:211-216, `LeaderView.VoterForgets`).
- ApplyOrder.AppliedInOrder: does not cover a restart of the node or a snapshot installed on it, after which it starts again from another index.
- KeyValueStore.TornFileRestoresPrefix: covers one recovery; opening does not cut a torn tail, and what is written behind it is read as `TornTail.TornTailSwallows` says.
- Recovery.RecoveryConverges: takes the entries at applied indices as fixed and every record of the write-ahead log as complete, and includes neither torn records (`TornTail.TornPutInvents`), nor snapshots received from a leader, nor a crash between saving a snapshot and persisting the metadata.
- RaftNodes.RaftNode.HandleClientCommand: does not contain the snapshot transfer that a refused request may start between two peers; that loop is `SnapshotTransfer.SendChunks`, and in `Protocol` its messages are steps of their own.
- RaftNodes.RaftNode.SendHeartbeats: passes over a peer that is behind the snapshot, whose transfer is `RaftNodes.RaftNode.SendSnapshot`.
- RaftNodes.RaftNode.HandleInstallSnapshot: what a buffer that holds no whole snapshot reads as is a parameter, as the code leaves memory it never wrote; the refusals sent when decoding throws are left out.
- RaftNodes.RaftNode.TriggerSnapshot: does not include the truncation of the write-ahead log (src/raft_node.cpp:146), which is outside the node's state; that is `KeyValueStore.KVStore.TruncateLog`.
- RaftNodes.RaftNode.HandleAppendEntries: does not include it either (src/rpc_server.cpp:454).
- SnapshotCodec.DeserializeSnapshot: gives no snapshot for a short read or a negative length, where the code goes on with what it has or throws.
- SnapshotTransfer.SendChunks: takes the term as the same for every chunk, where the code reads it anew; what completion does to the peer's indices is `RaftNodes.RaftNode.SendSnapshot`.
- WriteAheadLog.Wal.constructor: takes a size field too large for the file as its end, where the code may throw on allocating.
- CatchUp.CatchUp: leaves out the snapshot that the follower takes once its log is long; `CatchUp.ShortTakesNoSnapshot` says when there is none.
- MachineSafety.StateMachineSafety: is stated for the runs of `Completeness.LeaderCompleteness` in which no follower commits an unconfirmed entry, because the code bounds the commit index by the follower's own log instead (src/rpc_server.cpp:404, `FailingRuns.UnconfirmedCommitDiverges`).
- A crash between a leader's commit and the save behind it (src/raft_node.cpp:1005-1083): for the node it is a crash before the commit, with what was applied in the replayed store; a heartbeat that carried the commit index in between is no step of the model.
- The branch that rejects AppendEntries while a snapshot is being received (src/rpc_server.cpp:245-255): its flag is never set.
- A crash between saving a snapshot and persisting the metadata (src/raft_node.cpp:142-156): no step of `Protocol` and no event of `Recovery`; `Compaction.CrashBetweenSaves` says what it does to one node.
- Terms, indices and counts are mathematical integers; the 32-bit widths are modelled where they matter, in the codecs, the chunk bound and the base64 accumulator. Negative offsets and lengths, which the code turns into exceptions, are left out.
- The one store shared by all nodes of a process, and the write-ahead log it keeps, are not part of the cluster model; there a node's store is a map, and what a restart replays is a parameter of the crash step.
- Client request de-duplication and the caches of results: they compare the last request id only.
- Sockets, sendRPC, threads, timeouts, shutdown flags and condition variables: messages, their loss and delay, and freely chosen steps stand for them.
- JSON and the files of saved metadata and snapshots: taken as faithful copies; of JSON the texts of two messages are modelled and shown to determine the message, but not their parsing. A command's characters are bytes that the writer leaves or escapes as `JsonText.EscapedChar` says; its refusal of invalid UTF-8 is left out.
- Metrics, logging, status requests and the command-line client: no state that the protocol reads.
