/**
 * Elections in every run of the cluster, with or without compaction, snapshots
 * and truthful acknowledgements. One term is watched at a time; what happens in
 * other terms is left aside.
 */
module Voting {
  import opened Basics
  import opened Messages
  import opened State
  import opened Logs
  import opened Nodes
  import opened Election
  import opened Clusters

  /** What the election rules see of a node: everything in term `t`, and just the term otherwise. */
  function BoothOf(t: nat, n: Node, cast: map<nat, NodeId>): Booth {
    if n.currentTerm == t then Booth(t, n.role, n.votedFor, FollowsLeader(n), n.votes, cast)
    else Booth(n.currentTerm, Follower, None, false, n.votes, cast)
  }

  ghost predicate Watches(t: nat, p: Polls, v: NodeId, n: Node) {
    && v in p.booths && n.id == v && Elements(n.peers) == p.booths.Keys - {v} && Distinct(n.peers)
    && p.booths[v] == BoothOf(t, n, p.booths[v].cast)
  }

  /** A vote of term `t` in flight was really cast, for the node it is on its way to. */
  ghost predicate VotePacketOk(t: nat, p: Polls, from: NodeId, to: NodeId, m: Message) {
    m.RequestVoteReply? && m.voteGranted && m.term == t ==> m.voterId == from && Voted(p, from, t, to)
  }

  ghost predicate VotesOk(t: nat, p: Polls, v: NodeId, outgoing: seq<Envelope>) {
    forall k :: 0 <= k < |outgoing| ==> VotePacketOk(t, p, v, outgoing[k].to, outgoing[k].message)
  }

  ghost predicate Others(p: Polls, q: Polls, v: NodeId) {
    forall u :: u in p.booths && u != v ==> u in q.booths && q.booths[u] == p.booths[u]
  }

  /** `q` is a good continuation of `p` after a step of `v` that led to node `n`. */
  ghost predicate Continues(t: nat, p: Polls, q: Polls, v: NodeId, n: Node) {
    Election.Inv(q) && Extends(p, q) && Others(p, q, v) && Watches(t, q, v, n) && VotesOk(t, q, v, n.outgoing)
  }

  ghost predicate Polled(t: nat, p: Polls, v: NodeId, n: Node) {
    Election.Inv(p) && Watches(t, p, v, n) && VotesOk(t, p, v, n.outgoing)
  }

  lemma VotesStay(t: nat, p: Polls, q: Polls, v: NodeId, outgoing: seq<Envelope>)
    requires Extends(p, q) && VotesOk(t, p, v, outgoing)
    ensures VotesOk(t, q, v, outgoing)
  {
    forall k | 0 <= k < |outgoing| ensures VotePacketOk(t, q, v, outgoing[k].to, outgoing[k].message) {
      assert VotePacketOk(t, p, v, outgoing[k].to, outgoing[k].message);
      assert v in p.booths ==> KeepsVotes(p.booths[v], q.booths[v]);
    }
  }

  lemma ContinuesTransitive(t: nat, p: Polls, q: Polls, r: Polls, v: NodeId, n: Node, m: Node)
    requires Continues(t, p, q, v, n) && Continues(t, q, r, v, m)
    ensures Continues(t, p, r, v, m)
  {
    hide Election.Inv, KeepsVotes, VotesOk, Watches;
    ExtendsTransitive(p, q, r);
  }

  /** The node kept its booth and sent only messages that carry no granted vote. */
  lemma StaysPut(t: nat, p: Polls, v: NodeId, n: Node, m: Node)
    requires Polled(t, p, v, n)
    requires BoothOf(t, m, map[]) == BoothOf(t, n, map[]) && m.id == n.id && m.peers == n.peers
    requires |n.outgoing| <= |m.outgoing| && m.outgoing[..|n.outgoing|] == n.outgoing
    requires forall k :: |n.outgoing| <= k < |m.outgoing| ==>
               m.outgoing[k].message.RequestVoteReply? ==> !m.outgoing[k].message.voteGranted
    ensures Continues(t, p, p, v, m)
  {
    forall k | 0 <= k < |m.outgoing| ensures VotePacketOk(t, p, v, m.outgoing[k].to, m.outgoing[k].message) {
      if k < |n.outgoing| {
        assert m.outgoing[k] == n.outgoing[k];
      }
    }
  }

  /** The node moved to another booth and sent nothing. */
  lemma Moved(t: nat, p: Polls, q: Polls, v: NodeId, n: Node, m: Node)
    requires Polled(t, p, v, n) && Election.Inv(q) && Extends(p, q) && Others(p, q, v)
    requires v in q.booths && q.booths[v] == BoothOf(t, m, q.booths[v].cast)
    requires m.id == n.id && m.peers == n.peers && m.outgoing == n.outgoing
    ensures Continues(t, p, q, v, m)
  {
    hide Election.Inv, VotesOk;
    VotesStay(t, p, q, v, n.outgoing);
  }

  lemma HeedVotes(t: nat, p: Polls, v: NodeId, n: Node, term: nat, draw: nat) returns (q: Polls)
    requires Polled(t, p, v, n) && Heed(n, term, draw).currentTerm == t
    ensures Continues(t, p, q, v, Heed(n, term, draw))
  {
    hide Election.Inv, VotesOk, Extends;
    if term > n.currentTerm {
      q := Revise(p, v, Adopt(p.booths[v], term));
      AdoptKeeps(p, v, term);
      Moved(t, p, q, v, n, Heed(n, term, draw));
    } else {
      q := p;
      StaysPut(t, p, v, n, n);
    }
  }

  /** Taking office sends appends and snapshots, and nothing else. */
  lemma OfficeFacts(t: nat, n: Node)
    ensures var l := BecomeLeader(n);
            && l.id == n.id && l.peers == n.peers && BoothOf(t, l, map[]) == BoothOf(t, n.(role := Leader), map[])
            && |n.outgoing| <= |l.outgoing| && l.outgoing[..|n.outgoing|] == n.outgoing
            && forall k :: |n.outgoing| <= k < |l.outgoing| ==>
                 l.outgoing[k].message.AppendEntries? || l.outgoing[k].message.InstallSnapshot?
  {
    hide CommitPoint;
  }

  lemma VotersListed(t: nat, p: Polls, v: NodeId, n: Node)
    requires Polled(t, p, v, n) && n.currentTerm == t && n.role.Candidate? && |n.votes| >= MajoritySize(n)
    ensures Majority(p.booths.Keys, n.votes)
  {
    assert BoothOk(p, v);
    forall u | u in n.votes ensures u in p.booths {
      assert Voted(p, u, n.currentTerm, v);
    }
    DistinctCount(n.peers);
    assert p.booths.Keys == Elements(n.peers) + {v};
  }

  lemma WinVotes(t: nat, p: Polls, v: NodeId, n: Node) returns (q: Polls)
    requires Polled(t, p, v, n) && n.currentTerm == t && n.role.Candidate? && |n.votes| >= MajoritySize(n)
    ensures Continues(t, p, q, v, BecomeLeader(n))
  {
    hide Election.Inv, VotesOk, Extends, MajoritySize, BecomeLeader, Majority;
    VotersListed(t, p, v, n);
    WinKeeps(p, v);
    q := Polls(p.booths[v := Win(p.booths[v])], Crowned(p, v));
    var o := n.(role := Leader);
    Moved(t, p, q, v, n, o);
    OfficeFacts(t, n);
    StaysPut(t, q, v, o, BecomeLeader(n));
    ContinuesTransitive(t, p, q, q, v, o, BecomeLeader(n));
  }

  lemma RequestsFacts(n: Node)
    ensures forall k :: 0 <= k < |VoteRequests(n)| ==> VoteRequests(n)[k].message.RequestVote?
  {
    assert VoteRequest(n).RequestVote?;
  }

  lemma CandidateVotes(t: nat, p: Polls, v: NodeId, n: Node, draw: nat) returns (q: Polls)
    requires Polled(t, p, v, n) && n.currentTerm + 1 == t
    ensures Continues(t, p, q, v, BecomeCandidate(n, draw))
  {
    hide Election.Inv, VotesOk, Extends, MajoritySize, BecomeLeader;
    var c := StandForElection(n, draw);
    StandKeeps(p, v);
    var s := Revise(p, v, Stand(p.booths[v], v));
    Moved(t, p, s, v, n, c);
    if |c.votes| >= MajoritySize(c) {
      q := WinVotes(t, s, v, c);
    } else {
      q := s;
      RequestsFacts(c);
      StaysPut(t, s, v, c, BecomeCandidate(n, draw));
    }
    ContinuesTransitive(t, p, s, q, v, c, BecomeCandidate(n, draw));
  }

  lemma CandidateTerm(n: Node, draw: nat)
    ensures BecomeCandidate(n, draw).currentTerm == n.currentTerm + 1
  {
    hide BecomeLeader;
    OfficeOnward(StandForElection(n, draw));
  }

  lemma TickVotes(t: nat, p: Polls, v: NodeId, n: Node, draw: nat) returns (q: Polls)
    requires Polled(t, p, v, n) && Tick(n, draw).currentTerm == t
    ensures Continues(t, p, q, v, Tick(n, draw))
  {
    hide Election.Inv, VotesOk, Extends, BecomeCandidate;
    q := p;
    if !n.role.Leader? && n.electionElapsed + 1 >= n.electionTimeout {
      CandidateTerm(n.(electionElapsed := n.electionElapsed + 1), draw);
      q := CandidateVotes(t, p, v, n.(electionElapsed := n.electionElapsed + 1), draw);
    } else {
      StaysPut(t, p, v, n, Tick(n, draw));
    }
  }

  lemma GrantVotes(t: nat, p: Polls, v: NodeId, n: Node, m: Message, draw: nat) returns (q: Polls)
    requires Polled(t, p, v, n) && m.RequestVote? && m.term <= n.currentTerm == t
    requires FollowsLeader(n) ==> !Grants(n, m)
    ensures Continues(t, p, q, v, HandleRequestVote(n, m, draw))
  {
    hide Election.Inv, VotesOk, Extends, UpToDate;
    if Grants(n, m) {
      q := Revise(p, v, Grant(p.booths[v], m.candidateId));
      GrantKeeps(p, v, m.candidateId);
      var g := n.(votedFor := Some(m.candidateId), electionElapsed := 0, electionTimeout := draw);
      Moved(t, p, q, v, n, g);
      assert Voted(q, v, n.currentTerm, m.candidateId);
      SentVote(t, q, v, g, m.candidateId);
    } else {
      q := p;
      StaysPut(t, p, v, n, HandleRequestVote(n, m, draw));
    }
  }

  lemma SentVote(t: nat, p: Polls, v: NodeId, n: Node, candidate: NodeId)
    requires Watches(t, p, v, n) && VotesOk(t, p, v, n.outgoing) && Voted(p, v, n.currentTerm, candidate)
    ensures var s := Send(n, candidate, RequestVoteReply(n.currentTerm, n.id, true));
            Watches(t, p, v, s) && VotesOk(t, p, v, s.outgoing)
  {
  }

  lemma TallyVotes(t: nat, p: Polls, v: NodeId, n: Node, from: NodeId, m: Message) returns (q: Polls)
    requires Polled(t, p, v, n) && n.currentTerm == t && m.RequestVoteReply? && VotePacketOk(t, p, from, v, m)
    ensures Continues(t, p, q, v, HandleRequestVoteReply(n, m))
  {
    hide Election.Inv, VotesOk, Extends, MajoritySize, BecomeLeader;
    if n.role != Candidate || m.term != n.currentTerm || !m.voteGranted {
      q := p;
      StaysPut(t, p, v, n, n);
    } else {
      var c := n.(votes := n.votes + {m.voterId});
      TallyKeeps(p, v, m.voterId);
      q := Revise(p, v, Tally(p.booths[v], m.voterId));
      Moved(t, p, q, v, n, c);
      if |c.votes| >= MajoritySize(c) {
        var s := WinVotes(t, q, v, c);
        ContinuesTransitive(t, p, q, s, v, c, BecomeLeader(c));
        q := s;
      }
    }
  }

  /** Accepting a leader's append or snapshot. */
  lemma FollowVotes(t: nat, p: Polls, v: NodeId, n: Node, leader: NodeId, draw: nat, m: Node) returns (q: Polls)
    requires Polled(t, p, v, n) && n.currentTerm == t
    requires var f := BecomeFollower(n, n.currentTerm, Some(leader), draw);
             && m.id == n.id && m.peers == n.peers && BoothOf(t, m, map[]) == BoothOf(t, f, map[])
             && |n.outgoing| <= |m.outgoing| && m.outgoing[..|n.outgoing|] == n.outgoing
             && forall k :: |n.outgoing| <= k < |m.outgoing| ==> !m.outgoing[k].message.RequestVoteReply?
    ensures Continues(t, p, q, v, m)
  {
    hide Election.Inv, VotesOk, Extends;
    var f := BecomeFollower(n, n.currentTerm, Some(leader), draw);
    FollowKeeps(p, v);
    q := Revise(p, v, Follow(p.booths[v]));
    Moved(t, p, q, v, n, f);
    StaysPut(t, q, v, f, m);
    ContinuesTransitive(t, p, q, q, v, f, m);
  }

  lemma AppendVotes(t: nat, p: Polls, v: NodeId, n: Node, m: Message, draw: nat) returns (q: Polls)
    requires Polled(t, p, v, n) && m.AppendEntries? && m.term <= n.currentTerm == t
    ensures Continues(t, p, q, v, HandleAppendEntries(n, m, draw))
  {
    hide Election.Inv, VotesOk, Extends, Log.Splice, Log.Matches;
    if m.term < n.currentTerm {
      q := p;
      StaysPut(t, p, v, n, HandleAppendEntries(n, m, draw));
    } else {
      q := FollowVotes(t, p, v, n, m.leaderId, draw, HandleAppendEntries(n, m, draw));
    }
  }

  lemma InstallVotes(t: nat, p: Polls, v: NodeId, n: Node, m: Message, draw: nat) returns (q: Polls)
    requires Polled(t, p, v, n) && m.InstallSnapshot? && m.term <= n.currentTerm == t
    ensures Continues(t, p, q, v, HandleInstallSnapshot(n, m, draw))
  {
    hide Election.Inv, VotesOk, Extends;
    if m.term < n.currentTerm {
      q := p;
      StaysPut(t, p, v, n, n);
    } else {
      q := FollowVotes(t, p, v, n, m.leaderId, draw, HandleInstallSnapshot(n, m, draw));
    }
  }

  lemma ReplyVotes(t: nat, p: Polls, v: NodeId, n: Node, from: NodeId, m: Message)
    requires Polled(t, p, v, n) && m.AppendEntriesReply?
    ensures Continues(t, p, p, v, HandleAppendEntriesReply(n, from, m))
  {
    hide Election.Inv, VotesOk, Extends, CommitPoint;
    StaysPut(t, p, v, n, HandleAppendEntriesReply(n, from, m));
  }

  lemma StepVotes(t: nat, p: Polls, v: NodeId, n: Node, from: NodeId, m: Message, draw: nat) returns (q: Polls)
    requires Polled(t, p, v, n) && VotePacketOk(t, p, from, v, m)
    requires var h := Heed(n, m.term, draw);
             h.currentTerm == t && (m.RequestVote? && FollowsLeader(h) ==> !Grants(h, m))
    ensures Continues(t, p, q, v, Step(n, from, m, draw))
  {
    hide Election.Inv, VotesOk, Extends, Watches, Voted, HandleRequestVote, HandleRequestVoteReply, HandleAppendEntries,
      HandleAppendEntriesReply, HandleInstallSnapshot, Grants, FollowsLeader;
    var h := Heed(n, m.term, draw);
    var y := HeedVotes(t, p, v, n, m.term, draw);
    VotePacketStays(t, p, y, from, v, m);
    match m {
      case RequestVote(_, _, _, _) => q := GrantVotes(t, y, v, h, m, draw);
      case RequestVoteReply(_, _, _) => q := TallyVotes(t, y, v, h, from, m);
      case AppendEntries(_, _, _, _, _, _) => q := AppendVotes(t, y, v, h, m, draw);
      case AppendEntriesReply(_, _, _, _, _) => q := y; ReplyVotes(t, y, v, h, from, m);
      case InstallSnapshot(_, _, _, _, _) => q := InstallVotes(t, y, v, h, m, draw);
      case InstallSnapshotReply(_, _) => q := y; SnapshotReplyVotes(t, y, v, h, from, m);
    }
    ContinuesTransitive(t, p, y, q, v, h, Step(n, from, m, draw));
  }

  lemma SnapshotReplyVotes(t: nat, p: Polls, v: NodeId, n: Node, from: NodeId, m: Message)
    requires Polled(t, p, v, n) && m.InstallSnapshotReply?
    ensures Continues(t, p, p, v, HandleInstallSnapshotReply(n, from, m))
  {
    hide Election.Inv, VotesOk, Extends;
    StaysPut(t, p, v, n, HandleInstallSnapshotReply(n, from, m));
  }

  lemma VotePacketStays(t: nat, p: Polls, q: Polls, from: NodeId, to: NodeId, m: Message)
    requires Extends(p, q) && VotePacketOk(t, p, from, to, m)
    ensures VotePacketOk(t, q, from, to, m)
  {
    assert from in p.booths ==> KeepsVotes(p.booths[from], q.booths[from]);
  }

  // ---- Steps that end in another term --------------------------------------

  /** What any step does: terms never fall, and replies to vote requests carry the current term. */
  predicate Onward(n: Node, m: Node) {
    && m.id == n.id && m.peers == n.peers && m.currentTerm >= n.currentTerm && n.outgoing <= m.outgoing
    && forall k :: |n.outgoing| <= k < |m.outgoing| && m.outgoing[k].message.RequestVoteReply? ==>
         m.outgoing[k].message.term == m.currentTerm
  }

  lemma OfficeOnward(n: Node)
    ensures Onward(n, BecomeLeader(n)) && BecomeLeader(n).currentTerm == n.currentTerm
  {
    hide BecomeLeader;
    OfficeFacts(n.currentTerm, n);
  }

  lemma TickOnward(n: Node, draw: nat)
    ensures Onward(n, Tick(n, draw))
  {
    hide BecomeLeader;
    var c := StandForElection(n.(electionElapsed := n.electionElapsed + 1), draw);
    OfficeOnward(c);
    RequestsFacts(c);
  }

  lemma StepOnward(n: Node, from: NodeId, m: Message, draw: nat)
    ensures Onward(n, Step(n, from, m, draw)) && Step(n, from, m, draw).currentTerm == Heed(n, m.term, draw).currentTerm
  {
    hide BecomeLeader, CommitPoint, Log.Matches, Log.Splice, UpToDate;
    var h := Heed(n, m.term, draw);
    if m.RequestVoteReply? {
      OfficeOnward(h.(votes := h.votes + {m.voterId}));
    }
  }

  lemma ProposeOnward(n: Node, command: Command)
    ensures Onward(n, Propose(n, command).0) && Propose(n, command).0.currentTerm == n.currentTerm
  {
    hide CommitPoint;
  }

  /** A step that ends in another term concerns the watched term in nothing. */
  lemma Aside(t: nat, p: Polls, v: NodeId, n: Node, m: Node) returns (q: Polls)
    requires Polled(t, p, v, n) && Onward(n, m) && m.currentTerm != t
    ensures Continues(t, p, q, v, m)
  {
    hide VotesOk, Voted;
    var b := BoothOf(t, m, p.booths[v].cast);
    q := Revise(p, v, b);
    assert BoothOk(p, v);
    ReviseKeeps(p, v, b);
    VotesStay(t, p, q, v, n.outgoing);
    AsideSends(t, q, v, n, m);
  }

  lemma AsideSends(t: nat, q: Polls, v: NodeId, n: Node, m: Node)
    requires VotesOk(t, q, v, n.outgoing) && Onward(n, m) && m.currentTerm != t
    ensures VotesOk(t, q, v, m.outgoing)
  {
    forall k | 0 <= k < |m.outgoing| ensures VotePacketOk(t, q, v, m.outgoing[k].to, m.outgoing[k].message) {
      if k < |n.outgoing| {
        assert m.outgoing[k] == n.outgoing[k];
      }
    }
  }

  // ---- Runs ----------------------------------------------------------------

  /** The polls account for the whole cluster. */
  ghost predicate Counts(t: nat, p: Polls, c: Cluster) {
    && Election.Inv(p) && c.nodes.Keys == p.booths.Keys
    && (forall v :: v in c.nodes ==> Watches(t, p, v, c.nodes[v]) && VotesOk(t, p, v, c.nodes[v].outgoing))
    && (forall k :: k in c.net ==> VotePacketOk(t, p, k.from, k.to, k.message))
  }

  lemma ProposeVotes(t: nat, p: Polls, v: NodeId, n: Node, command: Command)
    requires Polled(t, p, v, n)
    ensures Continues(t, p, p, v, Propose(n, command).0)
  {
    hide Election.Inv, VotesOk, Extends, CommitPoint;
    StaysPut(t, p, v, n, Propose(n, command).0);
  }

  lemma DrainVotes(t: nat, p: Polls, v: NodeId, n: Node)
    requires Polled(t, p, v, n)
    ensures Continues(t, p, p, v, TakeReady(n).0) && TakeReady(n).1.messages == n.outgoing
  {
    hide Election.Inv, CommandsIn;
  }

  /** No vote of term `t` is granted after following a leader of that term. */
  predicate StableIn(t: nat, c: Cluster, e: Event)
    requires Enabled(c, e)
  {
    e.Delivers? && Receiver(c, e).currentTerm == t ==> VoteStable(c, e)
  }

  lemma ActedOnward(n: Node, e: Event)
    requires !e.Drains?
    ensures Onward(n, Acted(n, e))
  {
    hide Tick, Step, Propose, Onward;
    match e
    case Ticks(_, draw) => TickOnward(n, draw);
    case Delivers(k, draw) => StepOnward(n, k.from, k.message, draw);
    case Proposes(_, command) => ProposeOnward(n, command);
  }

  lemma EventVotes(t: nat, p: Polls, c: Cluster, e: Event) returns (q: Polls)
    requires Counts(t, p, c) && Enabled(c, e) && StableIn(t, c, e)
    ensures Continues(t, p, q, Actor(e), Acted(c.nodes[Actor(e)], e))
  {
    hide Election.Inv, VotesOk, Extends, Watches, VotePacketOk, Tick, Step, Propose, TakeReady, Grants, FollowsLeader,
      Continues, Onward, Heed;
    var v := Actor(e);
    q := p;
    if e.Drains? {
      DrainVotes(t, p, v, c.nodes[v]);
    } else if Acted(c.nodes[v], e).currentTerm != t {
      ActedOnward(c.nodes[v], e);
      q := Aside(t, p, v, c.nodes[v], Acted(c.nodes[v], e));
    } else {
      match e {
        case Ticks(_, draw) => q := TickVotes(t, p, v, c.nodes[v], draw);
        case Delivers(k, draw) =>
          StepOnward(c.nodes[v], k.from, k.message, draw);
          q := StepVotes(t, p, v, c.nodes[v], k.from, k.message, draw);
        case Proposes(_, command) => ProposeVotes(t, p, v, c.nodes[v], command);
      }
    }
  }

  lemma OutboxPosted(t: nat, p: Polls, v: NodeId, messages: seq<Envelope>, data: seq<KeyValue>, k: Packet)
    requires VotesOk(t, p, v, messages) && k in Posted(v, messages, data)
    ensures VotePacketOk(t, p, k.from, k.to, k.message)
  {
    var e :| e in messages && k == Packet(v, e.to, Filled(e.message, data));
    assert VotePacketOk(t, p, v, e.to, e.message);
  }

  lemma NetCounted(t: nat, p: Polls, q: Polls, c: Cluster, e: Event, k: Packet)
    requires Counts(t, p, c) && Enabled(c, e) && Extends(p, q) && k in After(c, e).net
    ensures VotePacketOk(t, q, k.from, k.to, k.message)
  {
    hide Election.Inv, Extends, Watches, VotePacketOk, Acted, Posted, DrawOk, CommandsIn, VotesOk;
    if k in c.net {
      VotePacketStays(t, p, q, k.from, k.to, k.message);
    } else {
      var v := Actor(e);
      DrainVotes(t, p, v, c.nodes[v]);
      OutboxPosted(t, p, v, c.nodes[v].outgoing, e.data, k);
      VotePacketStays(t, p, q, k.from, k.to, k.message);
    }
  }

  lemma EventCounted(t: nat, p: Polls, c: Cluster, e: Event) returns (q: Polls)
    requires Counts(t, p, c) && Enabled(c, e) && StableIn(t, c, e)
    ensures Counts(t, q, After(c, e)) && Extends(p, q)
  {
    hide Election.Inv, VotePacketOk, Acted, Posted, TakeReady, StableIn, DrawOk, KeepsVotes, VotesOk, Watches;
    q := EventVotes(t, p, c, e);
    var d := After(c, e);
    forall u | u in d.nodes ensures Watches(t, q, u, d.nodes[u]) && VotesOk(t, q, u, d.nodes[u].outgoing) {
      if u != Actor(e) {
        WatchesStay(t, p, q, u, c.nodes[u]);
        VotesStay(t, p, q, u, c.nodes[u].outgoing);
      }
    }
    forall k | k in d.net ensures VotePacketOk(t, q, k.from, k.to, k.message) {
      NetCounted(t, p, q, c, e, k);
    }
  }

  lemma WatchesStay(t: nat, p: Polls, q: Polls, u: NodeId, n: Node)
    requires Watches(t, p, u, n) && Extends(p, q) && u in q.booths && q.booths[u] == p.booths[u]
    ensures Watches(t, q, u, n)
  {
  }

  function NoVotes(c: Cluster): Polls {
    Polls(map v | v in c.nodes :: Booth(0, Follower, None, false, {}, map[]), map[])
  }

  lemma InitialCounted(t: nat, c: Cluster)
    requires Initial(c)
    ensures Counts(t, NoVotes(c), c)
  {
    assert NoVotes(c).booths.Keys == c.nodes.Keys;
  }

  ghost predicate StableRunIn(t: nat, r: Run) {
    IsRun(r) && forall i :: 0 <= i < |r.events| ==> StableIn(t, r.states[i], r.events[i])
  }

  lemma {:induction false} RunCounted(t: nat, r: Run, i: nat, j: nat) returns (p: Polls, q: Polls)
    requires StableRunIn(t, r) && i <= j < |r.states|
    ensures Counts(t, p, r.states[i]) && Counts(t, q, r.states[j]) && Extends(p, q)
    decreases j
  {
    hide Counts, Initial, Extends, Enabled, After, StableIn;
    if j == 0 {
      p, q := NoVotes(r.states[0]), NoVotes(r.states[0]);
      InitialCounted(t, r.states[0]);
      ExtendsReflexive(p);
    } else if i == j {
      var o, s := RunCounted(t, r, j - 1, j - 1);
      q := EventCounted(t, s, r.states[j - 1], r.events[j - 1]);
      p := q;
      ExtendsReflexive(p);
    } else {
      var s;
      p, s := RunCounted(t, r, i, j - 1);
      q := EventCounted(t, s, r.states[j - 1], r.events[j - 1]);
      ExtendsTransitive(p, s, q);
    }
  }

  lemma ExtendsReflexive(p: Polls)
    ensures Extends(p, p)
  {
  }

  /** Election safety, term by term: if in term `t` nobody votes after following a leader of that term,
      then at most one node ever leads it. */
  lemma OneLeaderInTerm(t: nat, r: Run, i: nat, j: nat, u: NodeId, v: NodeId)
    requires StableRunIn(t, r) && i <= j < |r.states| && u in r.states[i].nodes && v in r.states[j].nodes
    requires r.states[i].nodes[u].role.Leader? && r.states[j].nodes[v].role.Leader?
    requires r.states[i].nodes[u].currentTerm == r.states[j].nodes[v].currentTerm == t
    ensures u == v
  {
    hide StableRunIn, VotesOk, VotePacketOk, KeepsVotes, CrownOk;
    var p, q := RunCounted(t, r, i, j);
    assert Watches(t, p, u, r.states[i].nodes[u]) && Watches(t, q, v, r.states[j].nodes[v]);
    assert BoothOk(p, u) && BoothOk(q, v);
  }

  /** Election safety: a run in which no node votes after following a leader of the same term has at
      most one leader per term, over the whole run. */
  lemma ElectionSafety(r: Run, i: nat, j: nat, u: NodeId, v: NodeId)
    requires VoteStableRun(r) && i <= j < |r.states| && u in r.states[i].nodes && v in r.states[j].nodes
    requires r.states[i].nodes[u].role.Leader? && r.states[j].nodes[v].role.Leader?
    requires r.states[i].nodes[u].currentTerm == r.states[j].nodes[v].currentTerm
    ensures u == v
  {
    hide Initial, After, VoteStable, Receiver;
    OneLeaderInTerm(r.states[i].nodes[u].currentTerm, r, i, j, u, v);
  }
}
