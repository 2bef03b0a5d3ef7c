/**
 * The node of src/raft/node.rs as an object. Every method is proved to do what
 * the corresponding function of `Nodes` says; the draw that function mentions is
 * the election timeout the object ends up with.
 */
module RaftNodes {
  import opened Basics
  import opened Messages
  import opened State
  import opened Logs
  import opened RaftObjects
  import opened Nodes

  class RaftNode {
    const id: NodeId
    const peers: seq<NodeId>
    const config: Config
    const log: RaftLog
    const progress: LeaderProgress
    const votes: VoteTally
    var role: Role
    var leaderId: Option<NodeId>
    var currentTerm: nat
    var votedFor: Option<NodeId>
    var commitIndex: nat
    var lastApplied: nat
    var electionElapsed: nat
    var heartbeatElapsed: nat
    var electionTimeout: nat
    var outgoing: seq<Envelope>
    var committed: seq<Committed>

    function State(): Node
      reads this, log, progress, votes
    {
      Node(id, peers, config, role, leaderId, currentTerm, votedFor, log.Value(), commitIndex, lastApplied,
           progress.Value(), votes.granted, electionElapsed, heartbeatElapsed, electionTimeout, outgoing, committed)
    }

    /** The timeout range is not empty; drawing from an empty range is a programming error. */
    ghost predicate Valid() {
      config.electionTimeoutMin <= config.electionTimeoutMax
    }

    ghost predicate TimeoutInRange()
      reads this
    {
      config.electionTimeoutMin <= electionTimeout <= config.electionTimeoutMax
    }

    constructor (i: NodeId, ps: seq<NodeId>, c: Config)
      requires c.electionTimeoutMin <= c.electionTimeoutMax
      ensures State() == NewNode(i, ps, c, electionTimeout) && Valid() && TimeoutInRange()
      ensures fresh(log) && fresh(progress) && fresh(votes)
    {
      id, peers, config := i, ps, c;
      log := new RaftLog();
      progress := new LeaderProgress();
      votes := new VoteTally();
      role, leaderId, currentTerm, votedFor := Follower, None, 0, None;
      commitIndex, lastApplied, electionElapsed, heartbeatElapsed := 0, 0, 0, 0;
      outgoing, committed := [], [];
      var draw: nat :| c.electionTimeoutMin <= draw <= c.electionTimeoutMax;
      electionTimeout := draw;
    }

    method ResetElectionTimer()
      requires Valid()
      modifies this
      ensures State() == old(State()).(electionElapsed := 0, electionTimeout := electionTimeout)
      ensures TimeoutInRange()
    {
      electionElapsed := 0;
      var draw: nat :| config.electionTimeoutMin <= draw <= config.electionTimeoutMax;
      electionTimeout := draw;
    }

    method Send(to: NodeId, message: Message)
      modifies this
      ensures State() == Nodes.Send(old(State()), to, message)
    {
      outgoing := outgoing + [Envelope(to, message)];
    }

    // ---- Role transitions --------------------------------------------------

    method BecomeFollower(term: nat, leader: Option<NodeId>)
      requires Valid()
      modifies this
      ensures State() == Nodes.BecomeFollower(old(State()), term, leader, electionTimeout) && TimeoutInRange()
    {
      currentTerm := term;
      role := Follower;
      votedFor := None;
      leaderId := leader;
      ResetElectionTimer();
    }

    method BecomeCandidate()
      requires Valid()
      modifies this, log, progress, votes
      ensures State() == Nodes.BecomeCandidate(old(State()), electionTimeout) && TimeoutInRange()
    {
      hide Nodes.BecomeLeader, VoteRequests, MajoritySize;
      role := Candidate;
      currentTerm := currentTerm + 1;
      votedFor := Some(id);
      leaderId := None;
      votes.Clear();
      var count := votes.Record(id);
      ResetElectionTimer();
      assert votes.granted == {id};
      assert State() == StandForElection(old(State()), electionTimeout);
      if |votes.granted| >= MajoritySize(State()) {
        BecomeLeader();
        return;
      }
      RequestVotes();
    }

    /** Ask every peer for its vote. */
    method RequestVotes()
      modifies this
      ensures State() == old(State()).(outgoing := old(outgoing) + VoteRequests(old(State())))
    {
      ghost var n := State();
      var request := VoteRequest(State());
      var k := 0;
      while k < |peers|
        invariant k <= |peers| && State() == n.(outgoing := n.outgoing + VoteRequests(n)[..k])
      {
        Send(peers[k], request);
        k := k + 1;
        assert VoteRequests(n)[..k] == VoteRequests(n)[..k - 1] + [Envelope(peers[k - 1], request)];
      }
      assert VoteRequests(n)[..k] == VoteRequests(n);
    }

    method BecomeLeader()
      modifies this, log, progress, votes
      ensures State() == Nodes.BecomeLeader(old(State())) && electionTimeout == old(electionTimeout)
    {
      role := Leader;
      leaderId := Some(id);
      progress.Reset(peers, log.Value().LastIndex());
      heartbeatElapsed := 0;
      BroadcastAppend();
      AdvanceCommit();
    }

    // ---- Replication -------------------------------------------------------

    method SendAppend(peer: NodeId)
      modifies this
      ensures State() == Nodes.SendAppend(old(State()), peer)
    {
      var next := progress.Value().Next(peer);
      if next <= log.snapshotIndex {
        Send(peer, InstallSnapshot(currentTerm, id, log.snapshotIndex, log.Value().LastTerm(), []));
        return;
      }
      var prevIndex := next - 1;
      var prevTerm := log.Value().TermAt(prevIndex).GetOr(0);
      var entries := log.Value().EntriesFrom(next);
      Send(peer, AppendEntries(currentTerm, id, prevIndex, prevTerm, entries, commitIndex));
    }

    method BroadcastAppend()
      modifies this
      ensures State() == Nodes.BroadcastAppend(old(State()))
    {
      ghost var n := State();
      var k := 0;
      while k < |peers|
        invariant k <= |peers| && State() == n.(outgoing := n.outgoing + Appends(n)[..k])
      {
        SendAppend(peers[k]);
        k := k + 1;
        assert Appends(n)[..k] == Appends(n)[..k - 1] + [Envelope(peers[k - 1], AppendFor(n, peers[k - 1]))];
      }
      assert Appends(n)[..k] == Appends(n);
    }

    /** Count the leader and the peers known to hold `index`. */
    method CountReplicas(index: nat) returns (replicas: nat)
      ensures replicas == 1 + Holders(progress.Value(), peers, index)
    {
      replicas := 1;
      var k := 0;
      while k < |peers|
        invariant k <= |peers| && replicas == 1 + Holders(progress.Value(), peers[..k], index)
      {
        if progress.Value().Matched(peers[k]) >= index {
          replicas := replicas + 1;
        }
        k := k + 1;
        assert peers[..k][..k - 1] == peers[..k - 1];
      }
      assert peers[..k] == peers;
    }

    /** Scan down from the end of the log for the first committable index. */
    method AdvanceCommit()
      modifies this
      ensures State() == Nodes.AdvanceCommit(old(State()))
    {
      if role != Leader {
        return;
      }
      ghost var was := State();
      var n: nat := log.Value().LastIndex();
      while n > commitIndex
        invariant State() == was && CommitPoint(was, n) == CommitPoint(was, was.log.LastIndex())
      {
        if log.Value().TermAt(n) == Some(currentTerm) {
          var replicas := CountReplicas(n);
          if replicas >= MajoritySize(State()) {
            commitIndex := n;
            break;
          }
        }
        n := n - 1;
      }
    }

    // ---- Inputs ------------------------------------------------------------

    method Tick()
      requires Valid()
      modifies this, log, progress, votes
      ensures State() == Nodes.Tick(old(State()), electionTimeout)
      ensures old(TimeoutInRange()) ==> TimeoutInRange()
    {
      if role.Leader? {
        heartbeatElapsed := heartbeatElapsed + 1;
        if heartbeatElapsed >= config.heartbeatTicks {
          heartbeatElapsed := 0;
          BroadcastAppend();
        }
      } else {
        electionElapsed := electionElapsed + 1;
        if electionElapsed >= electionTimeout {
          BecomeCandidate();
        }
      }
    }

    method Propose(command: Command) returns (p: Proposal)
      modifies this, log, progress, votes
      ensures (State(), p) == Nodes.Propose(old(State()), command) && electionTimeout == old(electionTimeout)
    {
      if role != Leader {
        return NotLeader(leaderId);
      }
      var index := log.Append([LogEntry(currentTerm, command)]);
      BroadcastAppend();
      AdvanceCommit();
      p := Accepted(index);
    }

    method HandleRequestVote(m: Message)
      requires Valid() && m.RequestVote?
      modifies this
      ensures State() == Nodes.HandleRequestVote(old(State()), m, electionTimeout)
      ensures electionTimeout == old(electionTimeout) || TimeoutInRange()
    {
      var granted := false;
      if m.term >= currentTerm {
        var canVote := votedFor.None? || votedFor == Some(m.candidateId);
        if canVote && UpToDate(log.Value(), m.lastLogIndex, m.lastLogTerm) {
          granted := true;
          votedFor := Some(m.candidateId);
          ResetElectionTimer();
        }
      }
      Send(m.candidateId, RequestVoteReply(currentTerm, id, granted));
    }

    method HandleRequestVoteReply(m: Message)
      requires m.RequestVoteReply?
      modifies this, log, progress, votes
      ensures State() == Nodes.HandleRequestVoteReply(old(State()), m) && electionTimeout == old(electionTimeout)
    {
      if role != Candidate || m.term != currentTerm {
        return;
      }
      if m.voteGranted {
        var count := votes.Record(m.voterId);
        if count >= MajoritySize(State()) {
          BecomeLeader();
        }
      }
    }

    method RejectAppend(leader: NodeId, conflictIndex: nat)
      modifies this
      ensures State() == Nodes.RejectAppend(old(State()), leader, conflictIndex)
    {
      Send(leader, AppendEntriesReply(currentTerm, id, false, 0, conflictIndex));
    }

    method HandleAppendEntries(m: Message)
      requires Valid() && m.AppendEntries?
      modifies this, log
      ensures State() == Nodes.HandleAppendEntries(old(State()), m, electionTimeout)
      ensures electionTimeout == old(electionTimeout) || TimeoutInRange()
    {
      if m.term < currentTerm {
        RejectAppend(m.leaderId, 0);
        return;
      }
      BecomeFollower(m.term, Some(m.leaderId));
      if !log.Value().Matches(m.prevLogIndex, m.prevLogTerm) {
        RejectAppend(m.leaderId, ConflictHint(State(), m.prevLogIndex));
        return;
      }
      var lastNewIndex := log.Splice(m.prevLogIndex, m.entries);
      if m.leaderCommit > commitIndex {
        commitIndex := Min(m.leaderCommit, lastNewIndex);
      }
      Send(m.leaderId, AppendEntriesReply(currentTerm, id, true, lastNewIndex, 0));
    }

    method HandleAppendEntriesReply(from: NodeId, m: Message)
      requires m.AppendEntriesReply?
      modifies this, progress
      ensures State() == Nodes.HandleAppendEntriesReply(old(State()), from, m)
      ensures electionTimeout == old(electionTimeout)
    {
      if role != Leader || m.term != currentTerm {
        return;
      }
      if m.success {
        progress.SetMatchIndex(from, m.matchIndex);
        progress.SetNextIndex(from, m.matchIndex + 1);
        AdvanceCommit();
      } else {
        progress.SetNextIndex(from, Max(m.conflictIndex, 1));
        SendAppend(from);
      }
    }

    method HandleInstallSnapshot(m: Message)
      requires Valid() && m.InstallSnapshot?
      modifies this, log
      ensures State() == Nodes.HandleInstallSnapshot(old(State()), m, electionTimeout)
      ensures electionTimeout == old(electionTimeout) || TimeoutInRange()
    {
      if m.term < currentTerm {
        return;
      }
      BecomeFollower(m.term, Some(m.leaderId));
      log.InstallSnapshot(m.lastIncludedIndex, m.lastIncludedTerm);
      commitIndex := m.lastIncludedIndex;
      lastApplied := m.lastIncludedIndex;
      committed := committed + [Snapshot(m.data)];
      Send(m.leaderId, InstallSnapshotReply(currentTerm, id));
    }

    method HandleInstallSnapshotReply(from: NodeId, m: Message)
      requires m.InstallSnapshotReply?
      modifies progress
      ensures State() == Nodes.HandleInstallSnapshotReply(old(State()), from, m)
    {
      if role != Leader || m.term != currentTerm {
        return;
      }
      var index := log.snapshotIndex;
      progress.SetMatchIndex(from, index);
      progress.SetNextIndex(from, index + 1);
    }

    method Step(from: NodeId, message: Message)
      requires Valid()
      modifies this, log, progress, votes
      ensures State() == Nodes.Step(old(State()), from, message, electionTimeout)
      ensures old(TimeoutInRange()) ==> TimeoutInRange()
    {
      hide Nodes.HandleRequestVoteReply, Nodes.HandleAppendEntriesReply, Nodes.HandleInstallSnapshotReply,
        Log.Splice, Log.Matches, UpToDate, ConflictHint;
      if message.term > currentTerm {
        BecomeFollower(message.term, None);
      }
      match message {
        case RequestVote(_, _, _, _) => HandleRequestVote(message);
        case RequestVoteReply(_, _, _) => HandleRequestVoteReply(message);
        case AppendEntries(_, _, _, _, _, _) => HandleAppendEntries(message);
        case AppendEntriesReply(_, _, _, _, _) => HandleAppendEntriesReply(from, message);
        case InstallSnapshot(_, _, _, _, _) => HandleInstallSnapshot(message);
        case InstallSnapshotReply(_, _) => HandleInstallSnapshotReply(from, message);
      }
    }

    // ---- Output ------------------------------------------------------------

    method MaybeCompact()
      modifies log
      ensures State() == Nodes.MaybeCompact(old(State()))
    {
      var excess := if lastApplied >= log.snapshotIndex then lastApplied - log.snapshotIndex else 0;
      if excess >= config.snapshotThreshold {
        log.Compact(lastApplied);
      }
    }

    /** Emit the commands between the applied and the commit index one by one. */
    method ApplyCommitted()
      modifies this, log
      ensures State() == Nodes.ApplyCommitted(old(State())) && electionTimeout == old(electionTimeout)
    {
      ghost var n := State();
      while lastApplied < commitIndex
        invariant n.lastApplied <= lastApplied <= Max(n.lastApplied, commitIndex)
        invariant State() == n.(lastApplied := lastApplied,
                                committed := n.committed + CommandsIn(n.log, n.lastApplied, lastApplied))
      {
        lastApplied := lastApplied + 1;
        var entry := log.Value().Get(lastApplied);
        ghost var before := committed;
        if entry.Some? && entry.value.command != [] {
          committed := committed + [Committed.Command(lastApplied, entry.value.command)];
        }
        assert committed == before + CommandAt(n.log, lastApplied);
      }
      MaybeCompact();
    }

    method TakeReady() returns (ready: Ready)
      modifies this, log
      ensures (State(), ready) == Nodes.TakeReady(old(State())) && electionTimeout == old(electionTimeout)
    {
      ApplyCommitted();
      ready := Ready(outgoing, committed);
      outgoing := [];
      committed := [];
    }
  }
}
