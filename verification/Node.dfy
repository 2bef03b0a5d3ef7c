/**
 * The Raft node of src/raft/node.rs as a value: every handler is a function from
 * node to node. A random election timeout is the parameter `draw`; within one
 * call only the last draw is ever observed.
 */
module Nodes {
  import opened Basics
  import opened Messages
  import opened State
  import opened Logs

  datatype Config = Config(heartbeatTicks: nat, electionTimeoutMin: nat, electionTimeoutMax: nat,
                           snapshotThreshold: nat)

  datatype Node = Node(
    id: NodeId, peers: seq<NodeId>, config: Config,
    role: Role, leaderId: Option<NodeId>,
    currentTerm: nat, votedFor: Option<NodeId>, log: Log,
    commitIndex: nat, lastApplied: nat, progress: Progress, votes: set<NodeId>,
    electionElapsed: nat, heartbeatElapsed: nat, electionTimeout: nat,
    outgoing: seq<Envelope>, committed: seq<Committed>)

  datatype Ready = Ready(messages: seq<Envelope>, committed: seq<Committed>)

  datatype Proposal = Accepted(index: nat) | NotLeader(leader: Option<NodeId>)

  function NewNode(id: NodeId, peers: seq<NodeId>, config: Config, draw: nat): Node {
    Node(id, peers, config, Follower, None, 0, None, EMPTY_LOG, 0, 0, NO_PROGRESS, {}, 0, 0, draw, [], [])
  }

  function MajoritySize(n: Node): nat {
    (|n.peers| + 1) / 2 + 1
  }

  function Send(n: Node, to: NodeId, message: Message): Node {
    n.(outgoing := n.outgoing + [Envelope(to, message)])
  }

  // ---- Role transitions ----------------------------------------------------

  /** The vote is erased even when the term stays the same. */
  function BecomeFollower(n: Node, term: nat, leader: Option<NodeId>, draw: nat): Node {
    n.(currentTerm := term, role := Follower, votedFor := None, leaderId := leader,
       electionElapsed := 0, electionTimeout := draw)
  }

  function VoteRequest(n: Node): Message {
    RequestVote(n.currentTerm, n.id, n.log.LastIndex(), n.log.LastTerm())
  }

  function VoteRequests(n: Node): seq<Envelope> {
    seq(|n.peers|, i requires 0 <= i < |n.peers| => Envelope(n.peers[i], VoteRequest(n)))
  }

  function StandForElection(n: Node, draw: nat): Node {
    n.(role := Candidate, currentTerm := n.currentTerm + 1, votedFor := Some(n.id), leaderId := None,
       votes := {n.id}, electionElapsed := 0, electionTimeout := draw)
  }

  function BecomeCandidate(n: Node, draw: nat): Node {
    var c := StandForElection(n, draw);
    if |c.votes| >= MajoritySize(c) then BecomeLeader(c)
    else c.(outgoing := c.outgoing + VoteRequests(c))
  }

  function TakeOffice(n: Node): Node {
    n.(role := Leader, leaderId := Some(n.id), progress := FreshProgress(n.peers, n.log.LastIndex()),
       heartbeatElapsed := 0)
  }

  function BecomeLeader(n: Node): Node {
    AdvanceCommit(BroadcastAppend(TakeOffice(n)))
  }

  // ---- Replication ---------------------------------------------------------

  /** What `peer` needs next: entries, or a snapshot when they were compacted away. The snapshot's
      data is filled in by the driver. */
  function AppendFor(n: Node, peer: NodeId): Message {
    var next := n.progress.Next(peer);
    if next <= n.log.snapshotIndex then
      InstallSnapshot(n.currentTerm, n.id, n.log.snapshotIndex, n.log.LastTerm(), [])
    else
      AppendEntries(n.currentTerm, n.id, next - 1, n.log.TermAt(next - 1).GetOr(0), n.log.EntriesFrom(next),
                    n.commitIndex)
  }

  function SendAppend(n: Node, peer: NodeId): Node {
    Send(n, peer, AppendFor(n, peer))
  }

  function Appends(n: Node): seq<Envelope> {
    seq(|n.peers|, i requires 0 <= i < |n.peers| => Envelope(n.peers[i], AppendFor(n, n.peers[i])))
  }

  function BroadcastAppend(n: Node): Node {
    n.(outgoing := n.outgoing + Appends(n))
  }

  /** How many of `peers` are known to hold `index`. */
  function Holders(progress: Progress, peers: seq<NodeId>, index: nat): nat {
    if peers == [] then 0
    else
      var last := |peers| - 1;
      Holders(progress, peers[..last], index) + if progress.Matched(peers[last]) >= index then 1 else 0
  }

  /** Held by a majority, counting the leader itself, and created in the current term. */
  predicate Committable(n: Node, index: nat) {
    && n.log.TermAt(index) == Some(n.currentTerm)
    && 1 + Holders(n.progress, n.peers, index) >= MajoritySize(n)
  }

  /** The commit index found by scanning down from `index`. */
  function CommitPoint(n: Node, index: nat): nat {
    if index <= n.commitIndex then n.commitIndex
    else if Committable(n, index) then index
    else CommitPoint(n, index - 1)
  }

  function AdvanceCommit(n: Node): Node {
    if n.role != Leader then n else n.(commitIndex := CommitPoint(n, n.log.LastIndex()))
  }

  // ---- Inputs --------------------------------------------------------------

  function Tick(n: Node, draw: nat): Node {
    if n.role.Leader? then
      var m := n.(heartbeatElapsed := n.heartbeatElapsed + 1);
      if m.heartbeatElapsed >= m.config.heartbeatTicks then BroadcastAppend(m.(heartbeatElapsed := 0)) else m
    else
      var m := n.(electionElapsed := n.electionElapsed + 1);
      if m.electionElapsed >= m.electionTimeout then BecomeCandidate(m, draw) else m
  }

  function Propose(n: Node, command: Command): (Node, Proposal) {
    if n.role != Leader then (n, NotLeader(n.leaderId))
    else
      var m := n.(log := n.log.Append([LogEntry(n.currentTerm, command)]));
      (AdvanceCommit(BroadcastAppend(m)), Accepted(m.log.LastIndex()))
  }

  predicate UpToDate(log: Log, lastIndex: nat, lastTerm: nat) {
    lastTerm > log.LastTerm() || (lastTerm == log.LastTerm() && lastIndex >= log.LastIndex())
  }

  /** Whether a vote request is granted. */
  predicate Grants(n: Node, m: Message)
    requires m.RequestVote?
  {
    && m.term >= n.currentTerm
    && (n.votedFor.None? || n.votedFor == Some(m.candidateId))
    && UpToDate(n.log, m.lastLogIndex, m.lastLogTerm)
  }

  function HandleRequestVote(n: Node, m: Message, draw: nat): Node
    requires m.RequestVote?
  {
    var granted := Grants(n, m);
    var v := if granted then n.(votedFor := Some(m.candidateId), electionElapsed := 0, electionTimeout := draw) else n;
    Send(v, m.candidateId, RequestVoteReply(n.currentTerm, n.id, granted))
  }

  function HandleRequestVoteReply(n: Node, m: Message): Node
    requires m.RequestVoteReply?
  {
    if n.role != Candidate || m.term != n.currentTerm || !m.voteGranted then n
    else
      var c := n.(votes := n.votes + {m.voterId});
      if |c.votes| >= MajoritySize(c) then BecomeLeader(c) else c
  }

  function ConflictHint(n: Node, prevLogIndex: nat): nat {
    if prevLogIndex > n.log.LastIndex() then n.log.LastIndex() + 1
    else Max(prevLogIndex, n.log.FirstIndex())
  }

  function RejectAppend(n: Node, leader: NodeId, conflictIndex: nat): Node {
    Send(n, leader, AppendEntriesReply(n.currentTerm, n.id, false, 0, conflictIndex))
  }

  /** The log and commit index after an append that passed the consistency check. */
  function AcceptAppend(n: Node, m: Message): Node
    requires m.AppendEntries?
  {
    var log := n.log.Splice(m.prevLogIndex, m.entries);
    var commit := if m.leaderCommit > n.commitIndex then Min(m.leaderCommit, log.LastIndex()) else n.commitIndex;
    n.(log := log, commitIndex := commit)
  }

  function HandleAppendEntries(n: Node, m: Message, draw: nat): Node
    requires m.AppendEntries?
  {
    if m.term < n.currentTerm then RejectAppend(n, m.leaderId, 0)
    else
      var f := BecomeFollower(n, m.term, Some(m.leaderId), draw);
      if !f.log.Matches(m.prevLogIndex, m.prevLogTerm) then
        RejectAppend(f, m.leaderId, ConflictHint(f, m.prevLogIndex))
      else
        var a := AcceptAppend(f, m);
        Send(a, m.leaderId, AppendEntriesReply(a.currentTerm, a.id, true, a.log.LastIndex(), 0))
  }

  function HandleAppendEntriesReply(n: Node, from: NodeId, m: Message): Node
    requires m.AppendEntriesReply?
  {
    if n.role != Leader || m.term != n.currentTerm then n
    else if m.success then
      AdvanceCommit(n.(progress := n.progress.SetMatch(from, m.matchIndex).SetNext(from, m.matchIndex + 1)))
    else
      SendAppend(n.(progress := n.progress.SetNext(from, Max(m.conflictIndex, 1))), from)
  }

  function HandleInstallSnapshot(n: Node, m: Message, draw: nat): Node
    requires m.InstallSnapshot?
  {
    if m.term < n.currentTerm then n
    else
      var f := BecomeFollower(n, m.term, Some(m.leaderId), draw);
      var i := f.(log := f.log.Install(m.lastIncludedIndex, m.lastIncludedTerm),
                  commitIndex := m.lastIncludedIndex, lastApplied := m.lastIncludedIndex,
                  committed := f.committed + [Snapshot(m.data)]);
      Send(i, m.leaderId, InstallSnapshotReply(i.currentTerm, i.id))
  }

  function HandleInstallSnapshotReply(n: Node, from: NodeId, m: Message): Node
    requires m.InstallSnapshotReply?
  {
    if n.role != Leader || m.term != n.currentTerm then n
    else
      var index := n.log.snapshotIndex;
      n.(progress := n.progress.SetMatch(from, index).SetNext(from, index + 1))
  }

  /** A higher term always makes the node step down first. */
  function Heed(n: Node, term: nat, draw: nat): Node {
    if term > n.currentTerm then BecomeFollower(n, term, None, draw) else n
  }

  function Step(n: Node, from: NodeId, message: Message, draw: nat): Node {
    var h := Heed(n, message.term, draw);
    match message
    case RequestVote(_, _, _, _) => HandleRequestVote(h, message, draw)
    case RequestVoteReply(_, _, _) => HandleRequestVoteReply(h, message)
    case AppendEntries(_, _, _, _, _, _) => HandleAppendEntries(h, message, draw)
    case AppendEntriesReply(_, _, _, _, _) => HandleAppendEntriesReply(h, from, message)
    case InstallSnapshot(_, _, _, _, _) => HandleInstallSnapshot(h, message, draw)
    case InstallSnapshotReply(_, _) => HandleInstallSnapshotReply(h, from, message)
  }

  // ---- Output --------------------------------------------------------------

  /** The command at `index`, unless the log has no entry there or an empty one. */
  function CommandAt(log: Log, index: nat): seq<Committed> {
    match log.Get(index)
    case Some(e) => if e.command == [] then [] else [Committed.Command(index, e.command)]
    case None => []
  }

  /** The commands at indices `from + 1` to `to`. */
  function CommandsIn(log: Log, from: nat, to: nat): seq<Committed> {
    if to <= from then [] else CommandsIn(log, from, to - 1) + CommandAt(log, to)
  }

  function MaybeCompact(n: Node): Node {
    var excess := if n.lastApplied >= n.log.snapshotIndex then n.lastApplied - n.log.snapshotIndex else 0;
    if excess >= n.config.snapshotThreshold then n.(log := n.log.Compact(n.lastApplied)) else n
  }

  function ApplyCommitted(n: Node): Node {
    MaybeCompact(n.(lastApplied := Max(n.lastApplied, n.commitIndex),
                    committed := n.committed + CommandsIn(n.log, n.lastApplied, n.commitIndex)))
  }

  function TakeReady(n: Node): (Node, Ready) {
    var a := ApplyCommitted(n);
    (a.(outgoing := [], committed := []), Ready(a.outgoing, a.committed))
  }

  /** The node has accepted an append or a snapshot of its current term. */
  predicate FollowsLeader(n: Node) {
    n.role.Follower? && n.leaderId.Some?
  }

  /** The message is an append that passes the term and consistency checks. */
  predicate Accepts(n: Node, m: Message) {
    m.AppendEntries? && m.term >= n.currentTerm && n.log.Matches(m.prevLogIndex, m.prevLogTerm)
  }

  /** After the append nothing of an older leader is left behind the entries it carries, so
      reporting the last index claims no more than what the sender knows to be shared. */
  predicate AckIsSound(log: Log, m: Message)
    requires m.AppendEntries?
  {
    var s := log.Splice(m.prevLogIndex, m.entries);
    s.LastIndex() == m.prevLogIndex + |m.entries| || s.LastTerm() == m.term
  }

  /** A drain hands out everything queued. */
  lemma DrainSends(n: Node)
    ensures TakeReady(n).1.messages == n.outgoing
  {
  }

  // ---- The commit rule -----------------------------------------------------

  /** The scan finds the greatest committable index above the commit index, if there is one. */
  lemma {:induction false} CommitPointIsGreatest(n: Node, index: nat)
    ensures var r := CommitPoint(n, index);
            && r >= n.commitIndex
            && (r == n.commitIndex || (r <= index && Committable(n, r)))
            && forall j :: r < j <= index ==> !Committable(n, j)
  {
    if index > n.commitIndex && !Committable(n, index) {
      CommitPointIsGreatest(n, index - 1);
    }
  }

  /** The peers known to hold `index`. */
  function HolderSet(progress: Progress, peers: seq<NodeId>, index: nat): set<NodeId> {
    set p | p in peers && progress.Matched(p) >= index
  }

  /** With distinct peers the loop counts a set. */
  lemma {:induction false} HoldersCountsPeers(progress: Progress, peers: seq<NodeId>, index: nat)
    requires Distinct(peers)
    ensures Holders(progress, peers, index) == |HolderSet(progress, peers, index)|
  {
    if peers != [] {
      var last := |peers| - 1;
      var rest := peers[..last];
      HoldersCountsPeers(progress, rest, index);
      assert peers == rest + [peers[last]];
      assert HolderSet(progress, peers, index) ==
        HolderSet(progress, rest, index) + if progress.Matched(peers[last]) >= index then {peers[last]} else {};
    }
  }

  lemma {:induction false} DistinctCount(peers: seq<NodeId>)
    requires Distinct(peers)
    ensures |Elements(peers)| == |peers|
  {
    if peers != [] {
      var last := |peers| - 1;
      DistinctCount(peers[..last]);
      assert peers == peers[..last] + [peers[last]];
      assert Elements(peers) == Elements(peers[..last]) + {peers[last]};
    }
  }
}
