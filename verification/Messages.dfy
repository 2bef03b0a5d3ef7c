/** The RPC messages of src/raft/message.rs and the entries they carry. */
module Messages {
  import opened Basics

  type Command = seq<Byte>

  /** A command replicated across the cluster, tagged with its leader's term. */
  datatype LogEntry = LogEntry(term: nat, command: Command)

  /** One key and its value, as shipped in a snapshot. */
  datatype KeyValue = KeyValue(key: string, value: seq<Byte>)

  datatype Message =
    | RequestVote(term: nat, candidateId: NodeId, lastLogIndex: nat, lastLogTerm: nat)
    | RequestVoteReply(term: nat, voterId: NodeId, voteGranted: bool)
    | AppendEntries(term: nat, leaderId: NodeId, prevLogIndex: nat, prevLogTerm: nat,
                    entries: seq<LogEntry>, leaderCommit: nat)
    | AppendEntriesReply(term: nat, followerId: NodeId, success: bool, matchIndex: nat, conflictIndex: nat)
    | InstallSnapshot(term: nat, leaderId: NodeId, lastIncludedIndex: nat, lastIncludedTerm: nat,
                      data: seq<KeyValue>)
    | InstallSnapshotReply(term: nat, followerId: NodeId)

  /** A message and the node it goes to. */
  datatype Envelope = Envelope(to: NodeId, message: Message)

  /** What a node hands to its state machine. */
  datatype Committed = Command(index: nat, command: Command) | Snapshot(data: seq<KeyValue>)

  /** The driver fills in the data of a snapshot on its way out. */
  function Filled(m: Message, data: seq<KeyValue>): Message {
    if m.InstallSnapshot? then m.(data := data) else m
  }
}
