# Ferrium, verified

Ferrium is a small replicated key/value store: a Raft core without I/O, a log
with compaction, a single-owner driver in front of an in-memory store, and a
RESP2 codec for clients. This project models these four parts in Dafny 4.11 and
proves what they promise, over every input and every run. Check it with
`dafny verify dfyconfig.toml`.

**The node** is modelled twice. `Nodes` holds each handler of `src/raft/node.rs` as
a function on values, branch by branch; `RaftNodes.RaftNode`, with `RaftObjects`
for the log, the leader's bookkeeping and the vote tally, holds the same
handlers as methods that update fields in place, each proved equal to its
function. The driver (`Drivers`, `ServerDrivers`), the engine (`Stores`) and the codec
(`Resp`, `Codec`) are modelled in the same way. The random election timeout is a
parameter called `draw`.

**The cluster** (`Clusters`) is any number of such nodes with static membership and
a network that may lose, duplicate, delay and reorder messages. Runs are
sequences of ticks, deliveries, proposals and drains of the literal nodes. `Crews`
puts whole drivers in their place and shows that their runs are such runs.

**Where the code departs from the Raft paper** ("In Search of an Understandable
Consensus Algorithm, Extended Version"), the code is kept and the missing
condition is stated as a hypothesis on runs:

- `VoteStable`: no vote is granted in a term after following a leader of that term.
  `become_follower` erases the vote even when the term stays the same, and
  `Witnesses.TwoLeadersInOneTerm` is a run in which this elects two leaders.
- `AckSound`: an accepted append leaves no suffix of an older leader behind. A
  success reply reports the whole last index, and
  `AckWitness.DifferentCommandsApplied` is a run in which this makes two nodes
  apply different commands at index 1.
- `SnapshotFree`: nodes may compact at any time, but no snapshot is installed and
  no append from index 0 is accepted by a compacted log. Such an append is
  misplaced, exactly as `Compaction.MisplacedFromTheStart` says, and
  `MisplacedWitness.MisplacedEntryApplied` is a run in which this makes two nodes
  apply different commands at index 3. A snapshot that is delivered twice makes
  a node hand out an index twice (`Rewinding.RedeliveredSnapshotRepeats`); indices
  are handed out at most once exactly as long as no snapshot is installed below
  the applied index (`Rewinding.FallsExactly`, `NoRewindNoRepeat`, `RewindRepeats`).

A fourth departure costs progress instead of safety. A shipped snapshot is labelled
with the term of the last entry of the log, not with the term at the snapshot
point, so the append that follows it is rejected when the two differ:
`CatchUp.CatchUpExactly` says exactly when a follower catches up through a snapshot,
and `StuckWitness.StuckForGood` is a run after which one never does.

`VoteStable`, `AckSound` and `SnapshotFree` together make a `SoundRun`. Election safety
needs only the first, and only for the term in question; log matching needs only
`SnapshotFree` and one leader per term; validity needs nothing.

**How the safety proof goes.** Every sound run is explained by an abstract world
(`Worlds`) of full, never compacted logs in which each node also remembers its past
votes and acknowledgements. The invariant says that every later leader and every
voter holds every entry that could still become committed. `Election`, `Moves`,
`Commitment` and `Leadership` prove it kept by abstract moves; `Simulation`, `Handlers`
and `Safety` show that the literal handlers are such moves.

**Code and comments.** `RaftLog::matches` is documented to match at the snapshot
point "by convention"; the code compares the term there, and so does the model.
The error texts of the codec are reduced to which check failed.

## Model

| member | source | states |
|---|---|---|
| `Theorems.StateMachineSafety` | src/raft/node.rs:287-355 | in every sound run, of what any two nodes have handed to their state machines at any two moments, one is a prefix of the other |
| `Theorems.OneCommandPerIndex` | src/raft/node.rs:456-469 | in every sound run the emitted items are commands, two of them anywhere have the same index exactly when they have the same position, and are then the same command |
| `Replicas.SameAppliedSameDelivered` | src/raft/node.rs:456-469 | in every sound run two nodes with the same applied index, at whatever moments, have delivered exactly the same |
| `Replicas.ReplicasAgree` | src/server.rs:233-243 | and hold the same store |
| `Crews.CrewIsCluster` | src/server.rs:196-206 | whole drivers that exchange what they send are a cluster: every run of them is, event by event and drain by drain, a run of the nodes, with exactly their nodes and packets |
| `Crews.CrewSafety` | src/server.rs:225-243 | so in every sound run of drivers, of what two drivers have been handed to apply, one is a prefix of the other |
| `Crews.CrewAgrees` | src/server.rs:233-243 | drivers that have applied equally far, at whatever moments, hold the same store |
| `Crews.CrewElectsOne` | src/server.rs:196-206 | and two drivers that lead in one term are the same driver |
| `Crews.SentInOrder` | src/server.rs:228-231 | a round sends what its node queued, in queue order, each message to its own addressee and unchanged but for the store that goes into a snapshot |
| `Crews.MailedIsPosted` | src/server.rs:228-231 | the packets of a round are exactly those the cluster posts |
| `Theorems.LeadersAreComplete` | src/raft/node.rs:434-454 | in every sound run, what a node knows committed is held by every leader of a later term at all times and by a leader of the same term from then on |
| `Theorems.MatchIndexSound` | src/raft/node.rs:379-392 | in every sound run the peer holds the leader's log up to the match index recorded for it, while it is in the leader's term |
| `Theorems.RunExplained` | src/raft/node.rs:216-230 | every state of a sound run is explained by a world that satisfies the safety invariant |
| `Lineage.LogMatching` | src/raft/node.rs:327-355 | in every run without installed snapshots and with one leader per term, the same index and term mean the same log up to there, for any two nodes at any two moments |
| `Lineage.StableVotesOneLeader` | src/raft/node.rs:234-276 | stable votes give such a run |
| `Voting.OneLeaderInTerm` | src/raft/node.rs:287-323 | if nobody votes in term T after following a leader of T, at most one node ever leads T, whatever happens in other terms, with or without snapshots and sound acks |
| `Voting.ElectionSafety` | src/raft/state.rs:51-69 | runs with stable votes have at most one leader per term over the whole run |
| `Tallies.LeadsExactly` | src/raft/state.rs:51-69 | at every moment of every run, a node that stands in its term leads it if and only if the grants of a majority, its own vote included, have been delivered to it |
| `Tallies.TallyExactly` | src/raft/node.rs:313-323 | a granted vote makes the candidate leader if and only if it completes a majority; otherwise only the vote is added |
| `Tallies.StandExactly` | src/raft/node.rs:242-266 | standing wins at once if and only if one's own vote is a majority; otherwise every peer is asked in order, with the end of the log |
| `Elections.SupportersElect` | src/raft/node.rs:287-323 | a candidate that asks nodes which may still vote and whose logs are no more up to date, and hears their answers, leads if and only if they and itself are a majority |
| `Elections.OfficeAnnounces` | src/raft/node.rs:268-276 | a node that takes office tells every peer at once, in order, where its log ends and what is committed; with peers it commits nothing by that, and alone everything up to an entry of its term |
| `Elections.AnswerExactly` | src/raft/node.rs:287-304 | a vote request is answered once, to the candidate, in the higher of the two terms, and granted exactly to an up-to-date candidate the node may still vote for |
| `Elections.AnswerRepeats` | src/raft/node.rs:290-291 | asking again gives the same answer |
| `Elections.UpToDateOrders` | src/raft/node.rs:307-311 | being at least as up to date is a total preorder on logs, with equal last term and index as its ties |
| `Elections.StaleSenderStepsDown` | src/raft/node.rs:327-331 | the sender of a stale request or append is told the newer term and steps down on hearing it |
| `Elections.UnexpectedIgnored` | src/raft/node.rs:499-503 | a vote, append or snapshot reply of an older term, or to a node that does not stand or lead, changes nothing, and neither does a stale snapshot |
| `Timers.StandsExactly` | src/raft/node.rs:180-196 | a node that hears nothing stands for the next term exactly at the tick that completes its timeout |
| `Timers.StandsAgain` | src/raft/node.rs:242-249 | a candidate that hears nothing waits out the whole timeout it drew when it stood, and stands again in the term after |
| `Timers.RestartsExactly` | src/raft/node.rs:278-283 | which messages restart the election timer with a new timeout, and that no other does |
| `Timers.HeardOftenEnough` | src/raft/node.rs:327-334 | while an append of its term arrives before the shortest timeout has passed, a follower goes on following in its term |
| `Timers.HeartbeatsExactly` | src/raft/node.rs:180-188 | a leader that is only ticked sends one round of appends in every heartbeat period and nothing else |
| `Timers.FirstHeartbeat` | src/raft/node.rs:268-276 | the first heartbeat of a term comes a whole period after the appends that announced the leader |
| `Timers.AppendsReachAll` | src/raft/node.rs:396-400 | a round of appends goes to every peer once, in order |
| `Hints.NamedLeaderLed` | src/raft/node.rs:327-334 | in every run, whomever a node names as its leader did lead the node's current term by then |
| `Hints.NamesExactly` | src/raft/node.rs:216-230 | after every event a node names the leader it just heard from in its term, or itself when just elected, or whom it named before in the same term, or nobody |
| `History.TwoLeadersMeanVoteAgain` | src/raft/node.rs:234-240 | in every run, two leaders of term T mean that some node granted a vote in T after it had been handed an append or a snapshot of T |
| `History.FollowsMeansHeard` | src/raft/node.rs:327-334 | at every moment of every run, a node follows a leader if and only if it was handed an append or a snapshot of its current term before |
| `Witnesses.TwoLeadersInOneTerm` | src/raft/node.rs:234-240 | a run with sound acks and no snapshots that has two leaders in term 1 |
| `AckWitness.DifferentCommandsApplied` | src/raft/node.rs:342-354 | a run with stable votes and no snapshots in which two nodes apply different commands at index 1 |
| `MisplacedWitness.MisplacedEntryApplied` | src/raft/log.rs:95-100 | a run with stable votes, sound acks and no installed snapshot in which two nodes apply different commands at index 3, by an append from index 0 on a compacted log |
| `Rewinding.FallsExactly` | src/raft/node.rs:481-489 | handling a message lowers the applied index if and only if it installs a snapshot below it |
| `Rewinding.NoRewindNoRepeat` | src/raft/node.rs:456-469 | over any inputs, whatever they truncate, misplace or compact, if no snapshot is installed below the applied index then the indices handed out strictly increase |
| `Rewinding.RewindRepeats` | src/raft/node.rs:487-490 | after any snapshot installed below the applied index, the append of the next entry makes the node hand out an index it has passed |
| `Rewinding.RedeliveredSnapshotRepeats` | src/raft/node.rs:481-497 | whatever the node, a snapshot and the append after it, delivered twice, make it hand out the same index twice |
| `Validity.AppliedWasProposed` | src/raft/node.rs:199-213 | in every run, every command handed to a state machine was the argument of an earlier proposal that a leader accepted |
| `Theorems.IndicesInOrder` | src/raft/node.rs:434-477 | in every sound run every node keeps snapshot, applied, commit and last index in this order |
| `Exactness.AckTruthfulExactly` | src/raft/node.rs:342-354 | the leader shares everything a success reply reports if and only if the append's entries end the log or its last entry is of the leader's term |
| `Exactness.ForgetsVoteExactly` | src/raft/node.rs:327-334 | within a term, a vote is forgotten if and only if an append or a snapshot of that term is handled |
| `Exactness.FollowsExactly` | src/raft/node.rs:216-230 | the step rule behind it: after a message the node follows a leader exactly when the message is an append or a snapshot of its term or later, or it did before and the term stayed |
| `Election.SameTermSameLeader` | src/raft/state.rs:51-69 | two majorities of votes in one term elect the same node |
| `Commitment.LeaderCompleteness` | src/raft/node.rs:307-311 | in the abstract world, a later leader was elected with everything an earlier leader committed |
| `Commitment.ChoicesAgree` | src/raft/node.rs:434-454 | two commitments never disagree |
| `Commitment.ChosenIsAlive` | src/raft/node.rs:439-452 | what a majority acknowledged can never be given up by a majority |
| `Leadership.WinnerIsSafe` | src/raft/node.rs:313-323 | a candidate with a majority of votes holds every earlier entry that may still be committed |
| `Splicing.SpliceShape` | src/raft/log.rs:104-125 | splicing keeps the log before the first disagreement and takes the rest from the entries, or changes nothing |
| `Splicing.SpliceOutcome` | src/raft/log.rs:104-125 | an accepted stretch of a matching leader's log leaves the log as it is or makes it the leader's up to the stretch's end, and loses no agreement |
| `Absorption.ReceiveAllShares` | src/raft/log.rs:104-135 | under any segments of one leader in any order, accepted or rejected, the compacted log goes along with the full one, whose agreed prefix never shrinks |
| `Absorption.RedeliveryChangesNothing` | src/raft/log.rs:109-113 | delivering an accepted segment again, after any others, changes nothing |
| `Absorption.DropsOnlyFromConflict` | src/raft/log.rs:114-119 | an append drops entries only from the first term conflict on |
| `Compaction.CompactionInvisible` | src/raft/log.rs:147-156 | after any sequence of appends, compactions and splices at or above the snapshot point, all queries there answer as the uncompacted log |
| `Compaction.PerformAllAgrees` | src/raft/log.rs:104-156 | the compacted log stays the uncompacted one minus its beginning |
| `Compaction.OnlyFromTheStart` | src/raft/log.rs:95-100 | below the snapshot point exactly index 0 passes the consistency check |
| `Compaction.MisplacedFromTheStart` | src/raft/log.rs:115-118 | where an append from index 0 ends up on a compacted log |
| `Compaction.LandsInPlace` | src/raft/log.rs:104-125 | from the snapshot point on every appended entry lands at its own index |
| `Logs.QueriesAgree` | src/raft/log.rs:37-100 | each query at or above the snapshot point answers as the uncompacted log |
| `Logs.EntriesFromExactly` | src/raft/log.rs:82-91 | the entries from an index on, wherever it lies, are exactly those the log still has from there on, each at its place |
| `Logs.SpliceAtAgrees` | src/raft/log.rs:104-135 | splicing commutes with compaction |
| `Repair.RepairTerminates` | src/raft/node.rs:387-391 | from any next index at least 1 the exchange of probes and replies ends within that many rounds with the follower's log beginning with the leader's whole log, its commit index caught up, the leader's bookkeeping of it exact, that of other peers untouched and everything a majority holds committed |
| `Repair.ExchangeProgress` | src/raft/node.rs:359-377 | one exchange repairs the follower, or keeps both logs, strictly lowers the probed index and queues the next probe at once |
| `Repair.RepairCommits` | src/raft/node.rs:379-392 | when that follower completes a majority, the exchange ends with the leader's whole log committed |
| `Probes.NextAlwaysPositive` | src/raft/node.rs:387-391 | at every moment of every run every next index is at least 1, so that a probe can go below it |
| `Probes.UncompactedSendsEntries` | src/raft/node.rs:402-415 | so a node that never compacted never ships a snapshot |
| `CatchUp.CatchUpExactly` | src/raft/node.rs:402-415 | a follower that needs a snapshot holds the leader's whole log after two rounds, the snapshot and its ack, if and only if the last entry of the log has the term of the snapshot point; otherwise it keeps nothing but the snapshot, after however many rounds |
| `StuckWitness.StuckForGood` | src/raft/node.rs:405-413 | a run with stable votes, sound acks and no installed snapshot, after which one follower never gets a single entry, however often the two nodes talk |
| `LeaderChain.LeaderKeepsChain` | src/raft/node.rs:379-392 | snapshot, applied, commit and last index stay in this order through any inputs for as long as the node leads |
| `LeaderChain.AdvanceCommitRefines` | src/raft/node.rs:434-454 | the commit index moves to the greatest current-term entry above it that a majority holds, and only there |
| `LeaderChain.SnapshotAckCommitsNothing` | src/raft/node.rs:499-506 | a snapshot ack makes nothing above the commit index committable |
| `Nodes.CommitPointIsGreatest` | src/raft/node.rs:439-453 | the downward scan stops at the greatest committable index |
| `Nodes.HoldersCountsPeers` | src/raft/node.rs:443-448 | with distinct peers the replica count is the size of a set |
| `Applying.ExactlyOnceInOrder` | src/raft/node.rs:456-477 | the drains of a node, put together, are the non-empty commands 1 to applied, in order, of the log its inputs build without compaction, under any inputs that install no snapshot and overwrite no committed entry |
| `Skipping.OverwrittenCommitSkips` | src/raft/node.rs:342-345 | overwriting no applied entry is not enough: inputs after which any fresh node has skipped a committed index for good |
| `Skipping.DrivenExactlyOnce` | src/server.rs:196-206 | it is enough for a node that is drained after every event, as the driver does |
| `Emission.DrainEmits` | src/raft/node.rs:171-177 | a drain emits exactly the commands between applied and commit index, whether or not it compacts |
| `Trimming.CompactsExactly` | src/raft/node.rs:471-477 | a drain compacts exactly when what it would keep of the applied log reaches the threshold, and then keeps none of it and all of the rest |
| `Trimming.DrainTrims` | src/raft/node.rs:456-477 | in every sound run, right after a drain, a node keeps fewer applied entries than its threshold or none |
| `Drivers.WaitersConserved` | src/server.rs:209-257 | in every round each client, old or new, is answered exactly once or keeps waiting, and nobody waits on a node that does not lead |
| `Drivers.RunConserves` | src/server.rs:196-206 | over every run, everybody who was answered and everybody still pending are together everybody who came |
| `Drivers.RedirectedTo` | src/server.rs:249-256 | whoever is sent elsewhere in a round, at once or after waiting, is sent to the leader the node names when the round is over, and never by a node that leads |
| `Waiting.TruthfulRun` | src/server.rs:233-243 | over every run of a driver, a node that still leads after the event answers "committed" only for the command that client proposed |
| `Misleading.MisledExactly` | src/server.rs:233-256 | a client is told "committed" while another command is applied at its index if and only if in that round the node accepts an append that replaces its entry, misplaced appends included, and commits the replacement |
| `Misleading.ReplacedEntry` | src/raft/log.rs:104-135 | what an accepted append leaves at an index: the replacement exactly when it replaces the entry, else what was there or nothing |
| `DeposedWitness.DeposedLeaderMisleads` | src/server.rs:239-249 | for any two commands, a driver that starts fresh, wins an election, takes the one as a write and is deposed by an append with the other misleads its client |
| `Waiting.RoundSettles` | src/server.rs:225-257 | between rounds only a leader has waiters, and whoever waits for an index still to be applied waits for its own command |
| `Anchors.RoundAnchors` | src/server.rs:225-257 | while a leader's indices are in order, whoever is left waiting after a round waits above the applied index, for an entry of the log that holds its command |
| `Anchors.RunAnchors` | src/server.rs:196-206 | the same over every run in which each newly elected node has its indices in order |
| `Fleets.FleetConverges` | src/server.rs:225-270 | drivers that ship snapshots newer than they claim: in every run, a driver that has applied as far as its store reaches, by its own entries or by the snapshot it was restored from, holds the plain fold of the committed ledger |
| `Fleets.NeverRestoredIsExact` | src/server.rs:233-243 | a driver that never installed a snapshot holds the plain fold at all times |
| `Shipping.ShippedClaims` | src/server.rs:261-270 | a shipped snapshot carries the store of the moment and claims no more than it has applied |
| `Shipping.RoundTracks` | src/server.rs:225-243 | a round applies the committed ledger from where the driver was |
| `Shipping.RoundRestores` | src/server.rs:241-241 | installing a snapshot puts the sender's store in place under the claimed index |
| `Stores.SnapshotsConverge` | src/apply.rs:34-42 | through any chain of such snapshots, a store past the furthest sender is the plain fold |
| `Stores.NotBeforeTheHorizon` | src/apply.rs:34-42 | before that point it need not be |
| `Solo.SoloExact` | src/raft/node.rs:242-276 | with no peers and no messages, any ticks, writes and drains leave the fold of all accepted writes in order and nobody waiting, for every compaction threshold |
| `Solo.AloneRound` | src/server.rs:209-243 | each write is applied and answered, or refused, in its own round |
| `Stores.RestoreListing` | src/storage/memory.rs:42-55 | restoring a snapshot gives the store back |
| `Stores.RestoreIsLast` | src/storage/memory.rs:51-55 | after restoring any pairs, repeated keys included, exactly their keys are there, each with its last value |
| `Stores.AppliedSeen` | src/apply.rs:34-42 | a write is read back whole at its key, a deletion leaves nothing at each of its keys, and no other key changes |
| `Stores.HoldsExactly` | src/apply.rs:34-42 | after any number of ledger entries a key holds a value if and only if the last entry that touches it wrote that value |
| `Stores.ReplyCounts` | src/apply.rs:34-42 | the reply to a deletion is by how much the store shrinks |
| `RespLaws.RoundTrip` | src/protocol/resp.rs:40-88 | a frame followed by any bytes decodes to itself and leaves those bytes if and only if none of its simple and error strings contains CRLF |
| `RespLaws.ProperPrefix` | src/protocol/resp.rs:40-51 | every proper prefix of an encoding asks for more and consumes nothing |
| `RespLaws.ParseStable` | src/protocol/resp.rs:146-192 | a frame and a malformed input both stay what they are when bytes are appended |
| `RespLaws.ChunkingIndependence` | src/net/client.rs:22-33 | the decoded frames and the end of a connection are those of the concatenated bytes, which `RespStreams.DrainYields` gives |
| `RespLaws.SameBytesSameFrames` | src/net/client.rs:22-33 | two ways of cutting the same bytes give the same frames and the same end |
| `RespStreams.DrainYields` | src/net/client.rs:22-33 | draining the encodings of any frames, followed by any bytes, yields those frames and then what the bytes yield, and ends as they end |
| `RespStreams.PipelinedFramesArrive` | src/net/client.rs:22-33 | pipelined frames cut in any way arrive all, once and in order, and the beginning of an unfinished one is kept |
| `RespStreams.DrainStops` | src/net/client.rs:22-33 | an open connection keeps bytes for which the decoder asks for more, a closed one met bytes malformed in just that way |
| `RespStreams.ClosedStays` | src/net/client.rs:22-33 | once closed, a connection yields nothing more |
| `RespStreams.InlineDecodes` | src/protocol/resp.rs:181-190 | a line that starts with no tag decodes to the array of its words |
| `RespStreams.NegativeLengthIsNull` | src/protocol/resp.rs:154-171 | any negative length of a bulk string or an array is the null frame |
| `RespStreams.BadIntegerFails` | src/protocol/resp.rs:139-144 | text that is no 64-bit integer closes the connection where an integer is due |
| `RespStreams.BadTextFails` | src/protocol/resp.rs:194-199 | and so does text that is no UTF-8 in a simple string or an error |
| `RespStreams.BadBulkFails` | src/protocol/resp.rs:154-166 | and a bulk string that goes on where it should end |
| `RespStreams.ArrayStopsAtItem` | src/protocol/resp.rs:167-178 | an array fails as its first malformed item does, and waits as its first unfinished one does, after any number of whole items |
| `RespStreams.ParseMoves` | src/protocol/resp.rs:146-192 | parsing looks at nothing before its position |
| `RespText.IntegersExactly` | src/protocol/resp.rs:139-144 | exactly the decimal texts of 64-bit integers are read as integers, signs and leading zeros allowed |
| `RespText.LiteralBytes` | src/protocol/resp.rs:54-88 | one encoding of each kind of frame in literal bytes |
| `RespText.LiteralArray` | src/protocol/resp.rs:54-88 | and of an array |
| `Utf8.Utf8Exactly` | src/protocol/resp.rs:194-199 | exactly the encodings of sequences of Unicode scalar values are accepted as text |
| `RespLaws.DecodedRoundTrips` | src/protocol/resp.rs:146-192 | whatever is decoded is consumed from the front, at least one byte, and survives encoding and decoding |
| `RespLaws.ParsedIsNormal` | src/protocol/resp.rs:146-192 | a decoded frame is well typed and free of CRLF in its strings |
| `RespLaws.IntTextReads` | src/protocol/resp.rs:139-144 | every 64-bit integer is read back from its text |
| `RespLaws.WordsSplit` | src/protocol/resp.rs:181-190 | a space separates the words of an inline command |
| `RespLaws.WordsSingle` | src/protocol/resp.rs:181-190 | and nothing else does |
| `RaftObjects.RaftLog.Append` | src/raft/log.rs:76-79 | the object form of appending |
| `RaftObjects.RaftLog.Splice` | src/raft/log.rs:104-125 | the loop over the shared iterator is the recursive splice |
| `RaftObjects.RaftLog.TruncateFrom` | src/raft/log.rs:128-135 | the object form of truncation |
| `RaftObjects.RaftLog.InstallSnapshot` | src/raft/log.rs:139-143 | the log becomes empty at the given point |
| `RaftObjects.RaftLog.Compact` | src/raft/log.rs:147-156 | the object form of compaction |
| `RaftObjects.LeaderProgress.Reset` | src/raft/state.rs:27-34 | the loop leaves last index + 1 and 0 for exactly the peers |
| `RaftObjects.LeaderProgress.SetNextIndex` | src/raft/state.rs:40-42 | sets one next index |
| `RaftObjects.LeaderProgress.SetMatchIndex` | src/raft/state.rs:44-46 | sets one match index |
| `RaftObjects.VoteTally.Record` | src/raft/state.rs:61-64 | adds the voter and returns the number of distinct votes |
| `RaftNodes.RaftNode.constructor` | src/raft/node.rs:105-132 | a fresh follower with a timeout in range |
| `RaftNodes.RaftNode.BecomeFollower` | src/raft/node.rs:234-240 | refines the function, with the drawn timeout in range |
| `RaftNodes.RaftNode.BecomeCandidate` | src/raft/node.rs:242-266 | refines the function, instant self-election included |
| `RaftNodes.RaftNode.BecomeLeader` | src/raft/node.rs:268-276 | refines the function |
| `RaftNodes.RaftNode.Tick` | src/raft/node.rs:180-196 | refines the function |
| `RaftNodes.RaftNode.Propose` | src/raft/node.rs:199-213 | refines the function, with the assigned index or the known leader |
| `RaftNodes.RaftNode.Step` | src/raft/node.rs:216-230 | refines the function for every message |
| `RaftNodes.RaftNode.HandleRequestVote` | src/raft/node.rs:287-304 | refines the function |
| `RaftNodes.RaftNode.HandleRequestVoteReply` | src/raft/node.rs:313-323 | refines the function `Tallies.TallyExactly` is about |
| `RaftNodes.RaftNode.HandleAppendEntries` | src/raft/node.rs:327-355 | refines the function, rejections and hints included |
| `RaftNodes.RaftNode.HandleAppendEntriesReply` | src/raft/node.rs:379-392 | refines the function |
| `RaftNodes.RaftNode.HandleInstallSnapshot` | src/raft/node.rs:481-497 | refines the function |
| `RaftNodes.RaftNode.HandleInstallSnapshotReply` | src/raft/node.rs:499-506 | refines the function `CatchUp.CatchUpExactly` is about |
| `RaftNodes.RaftNode.BroadcastAppend` | src/raft/node.rs:396-400 | the loop sends each peer what it needs next |
| `RaftNodes.RaftNode.SendAppend` | src/raft/node.rs:402-430 | entries, or a snapshot when they are compacted away |
| `RaftNodes.RaftNode.CountReplicas` | src/raft/node.rs:443-448 | the inner loop counts the leader and the peers that hold the index |
| `RaftNodes.RaftNode.AdvanceCommit` | src/raft/node.rs:434-454 | the loops find the commit point |
| `RaftNodes.RaftNode.ApplyCommitted` | src/raft/node.rs:456-469 | the loop emits the commands between applied and commit index |
| `RaftNodes.RaftNode.MaybeCompact` | src/raft/node.rs:471-477 | compacts when the threshold is reached |
| `RaftNodes.RaftNode.TakeReady` | src/raft/node.rs:171-177 | hands out and clears both queues |
| `Stores.MemoryEngine.Set` | src/storage/memory.rs:30-32 | inserts or overwrites one key |
| `Stores.MemoryEngine.Del` | src/storage/memory.rs:34-36 | removes one key and tells whether it was there |
| `Stores.MemoryEngine.Snapshot` | src/storage/memory.rs:42-49 | lists every pair exactly once |
| `Stores.MemoryEngine.Restore` | src/storage/memory.rs:51-55 | the old contents go and the pairs are inserted in order |
| `Stores.MemoryEngine.ApplyCommand` | src/apply.rs:34-42 | afterwards `Get` answers the written value at its key, nothing at deleted keys and as before elsewhere; the reply is 1 or the number of keys that were there |
| `ServerDrivers.ServerDriver.HandleRequest` | src/server.rs:209-223 | refines the function: a proposal waits or is refused at once |
| `ServerDrivers.ServerDriver.Resolve` | src/server.rs:272-283 | everybody waiting for the index is answered once and nobody else |
| `ServerDrivers.ServerDriver.ApplyAll` | src/server.rs:233-243 | the loop over the committed items refines their fold |
| `ServerDrivers.ServerDriver.SendAll` | src/server.rs:228-231 | every message goes out in order, snapshots filled, to the addressees `Crews.SentInOrder` names |
| `ServerDrivers.ServerDriver.Dismiss` | src/server.rs:249-256 | the draining loop sends every remaining waiter once to the leader the node names |
| `ServerDrivers.ServerDriver.ProcessReady` | src/server.rs:225-257 | refines the function |
| `ServerDrivers.ServerDriver.Iterate` | src/server.rs:196-206 | one event, then drain, refines the function the driver theorems are about |
| `Codec.Cursor.U8` | src/protocol/resp.rs:109-113 | one byte, or incomplete |
| `Codec.Cursor.Line` | src/protocol/resp.rs:116-127 | the loop finds the first CRLF, or incomplete |
| `Codec.Cursor.Take` | src/protocol/resp.rs:129-136 | the next bytes, or incomplete |
| `Codec.Cursor.Parse` | src/protocol/resp.rs:146-192 | the recursive descent refines the parsing function, errors included |
| `Codec.Cursor.ParseItems` | src/protocol/resp.rs:173-177 | the loop over array items refines the recursive function |
| `Codec.Cursor.ReadString` | src/protocol/resp.rs:194-199 | a line of valid UTF-8, or invalid |
| `Codec.ByteBuffer.Encode` | src/protocol/resp.rs:54-88 | appends exactly the encoding |
| `Codec.ByteBuffer.Decode` | src/protocol/resp.rs:40-51 | takes one frame off the front, or leaves the buffer alone |

## Left out

- Tokio tasks, sockets, peer links, the length-prefixed JSON framing and the metrics endpoint: replaced by a bag of messages that may be lost, duplicated, delayed and reordered.
- The serde_json encoding of commands and messages: decoding is taken to invert encoding, and encodings to be non-empty (`Drivers.Faithful`).
- Random number generation, wall-clock time and liveness of elections over whole runs: the timeout is any value in its range. That a single canvass, repair or catch-up succeeds is proved (`Elections.SupportersElect`, `Repair.RepairTerminates`, `CatchUp.CatchUpExactly`).
- Cluster-wide theorems across installed snapshots: installing one may lower the applied and commit index, so that an index is handed out again (`Rewinding.RedeliveredSnapshotRepeats`, with the exact condition beside it); snapshots are treated in `Fleets` over a given committed ledger.
- `Fleets.FleetConverges`: that all nodes follow one committed ledger is a hypothesis of the run; `Crews.CrewAgrees` is the corresponding result for sound runs of the drivers, without that hypothesis.
- 64-bit overflow of terms, indices and counters: they are natural numbers here; integers in RESP frames do have their 64-bit range.
- The order in which independent clients are answered within one round, and the failure of an answer whose client has gone: answers are bags.
- Memory limits: a RESP array header with an enormous count is incomplete here, where the program would first try to reserve room for it; recursion depth is not bounded.
- Texts of error messages, log output, metrics and the cluster status reply.
- `src/sim.rs`, `src/protocol/command.rs`, `src/config.rs`, `src/error.rs`, `src/metrics.rs`, `src/main.rs`: a simulator for tests, flat matches, option parsing and counters.
- The lock around the store's map: the engine is used by one owner here.
