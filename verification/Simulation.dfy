/** Each handler of a node is a sequence of moves on the world. */
module Simulation {
  import opened Basics
  import opened Messages
  import opened State
  import opened Logs
  import opened Nodes
  import opened Election
  import opened Worlds
  import opened Moves
  import opened Commitment
  import opened Leadership

  /** Node `n`, stripped of timers and buffers, is node `v` of the world. */
  ghost predicate Mirrors(w: World, v: NodeId, n: Node) {
    && v in w.peers && v in w.polls.booths && n.id == v
    && Elements(n.peers) == w.peers.Keys - {v} && Distinct(n.peers)
    && var b, p := w.polls.booths[v], w.peers[v];
    && b.term == n.currentTerm && b.role == n.role && b.votedFor == n.votedFor
    && b.follows == FollowsLeader(n) && b.votes == n.votes
    && Compacts(n.log, p.log) && p.commit == n.commitIndex && p.matched == n.progress.matchIndex
  }

  /** The entries are a stretch of a reign that reaches beyond what its leader was elected with. */
  ghost predicate Segment(r: Reign, prev: nat, prevTerm: nat, entries: seq<LogEntry>) {
    && |r.base| <= prev + |entries| <= |r.log|
    && prevTerm == TermOf(r.log, prev)
    && forall j :: 0 <= j < |entries| ==> entries[j] == r.log[prev + j]
  }

  ghost predicate AppendOk(w: World, from: NodeId, to: NodeId, m: Message)
    requires m.AppendEntries?
  {
    && m.leaderId == from && to != from
    && m.term in w.reigns && m.term in w.polls.crowns && w.polls.crowns[m.term].leader == from
    && (|| (m.prevLogIndex > 0 && m.prevLogTerm == 0)
        || (&& Segment(w.reigns[m.term], m.prevLogIndex, m.prevLogTerm, m.entries)
            && CommitOk(w, m.term, w.reigns[m.term].log, m.leaderCommit)
            && m.leaderCommit <= m.prevLogIndex + |m.entries|))
  }

  /** What a message in flight tells the truth about. */
  ghost predicate PacketOk(w: World, from: NodeId, to: NodeId, m: Message) {
    match m
    case RequestVote(term, candidate, lastIndex, lastTerm) =>
      && candidate == from && from in w.peers && term in w.peers[from].stood
      && lastIndex == |w.peers[from].stood[term]| && lastTerm == Worlds.LastTerm(w.peers[from].stood[term])
    case RequestVoteReply(term, voter, granted) =>
      granted ==> voter == from && Voted(w.polls, from, term, to)
    case AppendEntries(_, _, _, _, _, _) =>
      AppendOk(w, from, to, m)
    case AppendEntriesReply(term, _, success, matchIndex, _) =>
      to != from && (success ==> matchIndex == 0 || Acked(w, from, term, matchIndex))
    case InstallSnapshot(_, _, _, _, _) => true
    case InstallSnapshotReply(_, _) => false
  }

  ghost predicate OutboxOk(w: World, v: NodeId, outgoing: seq<Envelope>) {
    forall k :: 0 <= k < |outgoing| ==> PacketOk(w, v, outgoing[k].to, outgoing[k].message)
  }

  ghost predicate Tracks(w: World, v: NodeId, n: Node) {
    Mirrors(w, v, n) && OutboxOk(w, v, n.outgoing)
  }

  /** Only node `v` moved between the two worlds. */
  ghost predicate OnlyMoved(w: World, x: World, v: NodeId) {
    && x.peers.Keys == w.peers.Keys && x.polls.booths.Keys == w.polls.booths.Keys
    && (forall u :: u in w.peers && u != v ==> x.peers[u] == w.peers[u])
    && (forall u :: u in w.polls.booths && u != v ==> x.polls.booths[u] == w.polls.booths[u])
  }

  /** World `x` is a good continuation of world `w` after a step of `v` that led to node `n`. */
  ghost predicate Follows(w: World, x: World, v: NodeId, n: Node) {
    Worlds.Inv(x) && Grows(w, x) && OnlyMoved(w, x, v) && Tracks(x, v, n)
  }

  // ---- Nothing said becomes false -----------------------------------------

  lemma AppendStays(w: World, x: World, from: NodeId, to: NodeId, m: Message)
    requires Grows(w, x) && m.AppendEntries? && AppendOk(w, from, to, m)
    ensures AppendOk(x, from, to, m)
  {
    if !(m.prevLogIndex > 0 && m.prevLogTerm == 0) {
      CommitStays(w, x, m.term, w.reigns[m.term].log, m.leaderCommit);
      LongerCommit(x, m.term, w.reigns[m.term].log, x.reigns[m.term].log, m.leaderCommit);
    }
  }

  lemma PacketStays(w: World, x: World, from: NodeId, to: NodeId, m: Message)
    requires Grows(w, x) && PacketOk(w, from, to, m)
    ensures PacketOk(x, from, to, m)
  {
    match m
    case RequestVote(term, _, _, _) => StoodStays(w, x, from, term);
    case RequestVoteReply(term, _, granted) =>
      if granted {
        assert KeepsVotes(w.polls.booths[from], x.polls.booths[from]);
      }
    case AppendEntries(_, _, _, _, _, _) => AppendStays(w, x, from, to, m);
    case AppendEntriesReply(term, _, success, matchIndex, _) =>
      if success && matchIndex != 0 {
        AckedStays(w, x, from, term, matchIndex);
      }
    case InstallSnapshot(_, _, _, _, _) =>
  }

  lemma OutboxStays(w: World, x: World, v: NodeId, outgoing: seq<Envelope>)
    requires Grows(w, x) && OutboxOk(w, v, outgoing)
    ensures OutboxOk(x, v, outgoing)
  {
    hide Grows, PacketOk;
    forall k | 0 <= k < |outgoing| ensures PacketOk(x, v, outgoing[k].to, outgoing[k].message) {
      PacketStays(w, x, v, outgoing[k].to, outgoing[k].message);
    }
  }

  lemma SentOk(w: World, v: NodeId, outgoing: seq<Envelope>, more: seq<Envelope>)
    requires OutboxOk(w, v, outgoing) && OutboxOk(w, v, more)
    ensures OutboxOk(w, v, outgoing + more)
  {
    hide PacketOk;
  }

  lemma PeerGrowsTransitive(w: World, x: World, y: World, v: NodeId)
    requires v in w.peers && v in x.peers && v in y.peers && v in w.polls.booths && v in x.polls.booths
    requires PeerGrows(w, x, v) && PeerGrows(x, y, v) && w.polls.booths[v].term <= x.polls.booths[v].term
    ensures PeerGrows(w, y, v)
  {
  }

  lemma GrowsTransitive(w: World, x: World, y: World)
    requires Grows(w, x) && Grows(x, y)
    ensures Grows(w, y)
  {
    hide PeerGrows, KeepsVotes;
    ExtendsTransitive(w.polls, x.polls, y.polls);
    forall v | v in w.peers ensures PeerGrows(w, y, v) {
      PeerGrowsTransitive(w, x, y, v);
    }
  }

  /** Two steps of the same node in a row. */
  lemma FollowsTransitive(w: World, x: World, y: World, v: NodeId, n: Node, m: Node)
    requires Follows(w, x, v, n) && Follows(x, y, v, m)
    ensures Follows(w, y, v, m)
  {
    hide Worlds.Inv, Grows, Tracks;
    GrowsTransitive(w, x, y);
  }

  lemma MovedOnly(w: World, v: NodeId, b: Booth, p: Peer)
    requires Shape(w) && v in w.peers
    ensures OnlyMoved(w, Move(w, v, b, p), v)
  {
  }

  // ---- Steps without messages ---------------------------------------------

  lemma HeedSim(w: World, v: NodeId, n: Node, term: nat, draw: nat) returns (x: World)
    requires Worlds.Inv(w) && Tracks(w, v, n)
    ensures Follows(w, x, v, Heed(n, term, draw))
  {
    hide Worlds.Inv, Grows, PacketOk, Compacts, Shape;
    if term > n.currentTerm {
      x := Move(w, v, Adopt(w.polls.booths[v], term), w.peers[v]);
      InvFacts(w, v);
      AdoptMove(w, v, term);
      MovedOnly(w, v, Adopt(w.polls.booths[v], term), w.peers[v]);
      OutboxStays(w, x, v, n.outgoing);
    } else {
      x := w;
      GrowsReflexive(w);
    }
  }

  lemma GrowsReflexive(w: World)
    requires Worlds.Inv(w)
    ensures Grows(w, w)
  {
    hide ReignOk, LeadOk, ChoiceOk, PeerOk, Election.Inv;
  }

  /** A node that only changed timers, buffers of commands or bookkeeping outside the world. */
  lemma IdleSim(w: World, v: NodeId, n: Node, m: Node)
    requires Worlds.Inv(w) && Tracks(w, v, n)
    requires Mirrors(w, v, m) && m.outgoing == n.outgoing
    ensures Follows(w, w, v, m)
  {
    hide Worlds.Inv, Grows, Mirrors, OutboxOk;
    GrowsReflexive(w);
  }

  /** Sending truthful messages. */
  lemma SendSim(w: World, v: NodeId, n: Node, m: Node, more: seq<Envelope>)
    requires Worlds.Inv(w) && Tracks(w, v, n)
    requires m == n.(outgoing := n.outgoing + more) && OutboxOk(w, v, more)
    ensures Follows(w, w, v, m)
  {
    hide Worlds.Inv, Grows, OutboxOk, Compacts;
    GrowsReflexive(w);
    SentOk(w, v, n.outgoing, more);
  }

  // ---- What a leader sends -------------------------------------------------

  lemma LeaderSegment(log: Log, full: FullLog, r: Reign, next: nat)
    requires Compacts(log, full) && r.log == full && |r.base| <= |full| && next > log.snapshotIndex
    requires next - 1 <= |full|
    ensures Segment(r, next - 1, log.TermAt(next - 1).GetOr(0), log.EntriesFrom(next))
    ensures next - 1 + |log.EntriesFrom(next)| == |full|
  {
  }

  lemma BeyondTheEnd(log: Log, full: FullLog, next: nat)
    requires Compacts(log, full) && next > log.snapshotIndex && next - 1 > |full|
    ensures log.TermAt(next - 1).GetOr(0) == 0
  {
  }

  lemma CommitWithinLog(w: World, term: nat, l: FullLog, k: nat)
    requires CommitOk(w, term, l, k)
    ensures k <= |l|
  {
  }

  /** Every append a leader builds is a stretch of its reign, or can match no log at all. */
  lemma AppendForOk(w: World, v: NodeId, n: Node, peer: NodeId)
    requires Worlds.Inv(w) && Mirrors(w, v, n) && n.role.Leader? && peer != v
    ensures PacketOk(w, v, peer, AppendFor(n, peer))
  {
    hide Compacts, Segment, CommitOk, ReignOk, LeadOk, ChoiceOk, Election.Inv, KeepOk, BallotsKeepOk, HistoryOk,
      Elements, Distinct, Log.TermAt, Log.EntriesFrom;
    LeaderFacts(w, v);
    var r, next := w.reigns[n.currentTerm], n.progress.Next(peer);
    assert PeerOk(w, v);
    CommitWithinLog(w, n.currentTerm, r.log, n.commitIndex);
    if next > n.log.snapshotIndex {
      if next - 1 <= |r.log| {
        ReignBase(w, n.currentTerm);
        LeaderSegment(n.log, w.peers[v].log, r, next);
      } else {
        BeyondTheEnd(n.log, w.peers[v].log, next);
      }
    }
  }

  lemma ReignBase(w: World, term: nat)
    requires Worlds.Inv(w) && term in w.reigns
    ensures term >= 1 && ReignOk(w, term) && |w.reigns[term].base| <= |w.reigns[term].log|
  {
    hide PeerOk, Election.Inv, ChoiceOk, LeadOk;
    assert ReignOk(w, term);
  }

  lemma AppendsOk(w: World, v: NodeId, n: Node)
    requires Worlds.Inv(w) && Mirrors(w, v, n) && n.role.Leader?
    ensures OutboxOk(w, v, Appends(n))
  {
    hide Worlds.Inv, PacketOk, Compacts, AppendFor;
    forall k | 0 <= k < |n.peers| ensures PacketOk(w, v, n.peers[k], AppendFor(n, n.peers[k])) {
      assert n.peers[k] in Elements(n.peers);
      AppendForOk(w, v, n, n.peers[k]);
    }
  }

  lemma BroadcastSim(w: World, v: NodeId, n: Node)
    requires Worlds.Inv(w) && Tracks(w, v, n) && n.role.Leader?
    ensures Follows(w, w, v, BroadcastAppend(n))
  {
    hide Worlds.Inv, Mirrors, OutboxOk, Appends, Follows;
    AppendsOk(w, v, n);
    SendSim(w, v, n, BroadcastAppend(n), Appends(n));
  }

  // ---- Committing ----------------------------------------------------------

  lemma ClusterSize(w: World, v: NodeId, n: Node)
    requires Mirrors(w, v, n)
    ensures |w.peers.Keys| == |n.peers| + 1
  {
    hide Compacts;
    DistinctCount(n.peers);
    assert w.peers.Keys == Elements(n.peers) + {v};
  }

  /** Reaching the node's majority size means being a majority of the cluster. */
  lemma MajorityOf(w: World, v: NodeId, n: Node, q: set<NodeId>)
    requires Mirrors(w, v, n) && q <= w.peers.Keys && |q| >= MajoritySize(n)
    ensures Majority(w.peers.Keys, q)
  {
    ClusterSize(w, v, n);
  }

  lemma CommittableEntry(log: Log, full: FullLog, index: nat, term: nat)
    requires Compacts(log, full) && index >= 1 && log.TermAt(index) == Some(term)
    ensures index <= |full| && full[index - 1].term == term
  {
  }

  lemma HolderAcked(w: World, v: NodeId, n: Node, index: nat, u: NodeId)
    requires Worlds.Inv(w) && Mirrors(w, v, n) && n.role.Leader? && index >= 1
    requires u in HolderSet(n.progress, n.peers, index)
    ensures Acked(w, u, n.currentTerm, index)
  {
    hide LogOk, HistoryOk, KeepOk, BallotsKeepOk, ReignOk, LeadOk, ChoiceOk, Election.Inv, Compacts;
    assert PeerOk(w, v);
  }

  /** A committable index is an entry of the current term acknowledged by a majority. */
  lemma CommittableIsChosen(w: World, v: NodeId, n: Node, index: nat)
    requires Worlds.Inv(w) && Mirrors(w, v, n) && n.role.Leader? && index >= 1 && Committable(n, index)
    ensures ChoiceOk(w, Choice(n.currentTerm, index)) && w.reigns[n.currentTerm].log == w.peers[v].log
  {
    hide Worlds.Inv, Compacts, Log.TermAt, HolderSet, Holders, MajoritySize;
    LeaderFacts(w, v);
    CommittableEntry(n.log, w.peers[v].log, index, n.currentTerm);
    var h := HolderSet(n.progress, n.peers, index);
    HoldersCountsPeers(n.progress, n.peers, index);
    HoldersArePeers(n.progress, n.peers, index);
    var q := h + {v};
    MajorityOf(w, v, n, q);
    forall u | u in q ensures Acked(w, u, n.currentTerm, index) {
      if u != v {
        HolderAcked(w, v, n, index, u);
      }
    }
    assert ChosenBy(w, Choice(n.currentTerm, index), q);
  }

  lemma HoldersArePeers(progress: Progress, peers: seq<NodeId>, index: nat)
    ensures HolderSet(progress, peers, index) <= Elements(peers)
  {
  }

  lemma SettleSim(w: World, v: NodeId, n: Node, k: nat) returns (x: World)
    requires Worlds.Inv(w) && Tracks(w, v, n) && CommitOk(w, n.currentTerm, w.peers[v].log, k)
    ensures Follows(w, x, v, n.(commitIndex := k))
  {
    hide Worlds.Inv, Grows, PacketOk, Compacts, Shape, CommitOk;
    InvFacts(w, v);
    x := Move(w, v, w.polls.booths[v], w.peers[v].(commit := k));
    SettleMove(w, v, k);
    MovedOnly(w, v, w.polls.booths[v], w.peers[v].(commit := k));
    OutboxStays(w, x, v, n.outgoing);
  }

  lemma ChooseSim(w: World, v: NodeId, n: Node, index: nat) returns (x: World)
    requires Worlds.Inv(w) && Tracks(w, v, n) && n.role.Leader? && index >= 1 && Committable(n, index)
    ensures Follows(w, x, v, n) && x.peers == w.peers && x.polls == w.polls
    ensures CommitOk(x, n.currentTerm, x.peers[v].log, index)
  {
    hide Worlds.Inv, Grows, PacketOk, Compacts, Committable, ChosenBy;
    var c := Choice(n.currentTerm, index);
    CommittableIsChosen(w, v, n, index);
    ChooseMove(w, c);
    x := w.(chosen := w.chosen + {c});
    OutboxStays(w, x, v, n.outgoing);
    assert Covers(x, c, n.currentTerm, x.peers[v].log, index);
  }

  lemma CommitSim(w: World, v: NodeId, n: Node) returns (x: World)
    requires Worlds.Inv(w) && Tracks(w, v, n)
    ensures Follows(w, x, v, AdvanceCommit(n))
  {
    hide Worlds.Inv, Grows, Tracks, Committable, CommitPoint, CommitOk;
    var k := CommitPoint(n, n.log.LastIndex());
    CommitPointIsGreatest(n, n.log.LastIndex());
    if n.role.Leader? && k != n.commitIndex {
      var y := ChooseSim(w, v, n, k);
      x := SettleSim(y, v, n, k);
      FollowsTransitive(w, y, x, v, n, AdvanceCommit(n));
    } else {
      x := w;
      GrowsReflexive(w);
      assert AdvanceCommit(n) == n;
    }
  }

  // ---- Elections -----------------------------------------------------------

  lemma ElectSim(w: World, v: NodeId, n: Node) returns (x: World)
    requires Worlds.Inv(w) && Tracks(w, v, n) && n.role.Candidate? && |n.votes| >= MajoritySize(n)
    ensures Follows(w, x, v, BecomeLeader(n))
  {
    hide Worlds.Inv, Grows, PacketOk, Compacts, AdvanceCommit, BroadcastAppend, MajoritySize, Elements, Distinct,
      Follows;
    VotersAreMembers(w, v);
    MajorityOf(w, v, n, n.votes);
    var nothing := FreshProgress(n.peers, n.log.LastIndex()).matchIndex;
    var y := Elected(w, v, nothing);
    ElectMove(w, v, nothing);
    var t := TakeOffice(n);
    InvFacts(w, v);
    ElectedMirrors(w, v, n);
    OutboxStays(w, y, v, n.outgoing);
    FollowsIntro(w, y, v, t);
    BroadcastSim(y, v, t);
    FollowsTransitive(w, y, y, v, t, BroadcastAppend(t));
    FollowsFacts(w, y, v, BroadcastAppend(t));
    x := CommitSim(y, v, BroadcastAppend(t));
    FollowsTransitive(w, y, x, v, BroadcastAppend(t), BecomeLeader(n));
  }

  lemma TracksFacts(w: World, v: NodeId, n: Node)
    requires Tracks(w, v, n)
    ensures Mirrors(w, v, n) && OutboxOk(w, v, n.outgoing)
  {
  }

  lemma MirrorFacts(w: World, v: NodeId, n: Node)
    requires Mirrors(w, v, n)
    ensures v in w.peers && v in w.polls.booths && w.polls.booths[v].term == n.currentTerm && n.id == v
    ensures w.polls.booths[v].role == n.role && w.polls.booths[v].votedFor == n.votedFor
    ensures w.polls.booths[v].follows == FollowsLeader(n) && w.polls.booths[v].votes == n.votes
    ensures Compacts(n.log, w.peers[v].log) && w.peers[v].commit == n.commitIndex
  {
  }

  lemma FollowsIntro(w: World, x: World, v: NodeId, n: Node)
    requires Worlds.Inv(x) && Grows(w, x) && OnlyMoved(w, x, v) && Mirrors(x, v, n) && OutboxOk(x, v, n.outgoing)
    ensures Follows(w, x, v, n)
  {
  }

  lemma FollowsFacts(w: World, x: World, v: NodeId, n: Node)
    requires Follows(w, x, v, n)
    ensures Worlds.Inv(x) && Grows(w, x) && OnlyMoved(w, x, v) && Tracks(x, v, n)
    ensures Mirrors(x, v, n) && OutboxOk(x, v, n.outgoing)
  {
  }

  lemma VotersAreMembers(w: World, v: NodeId)
    requires Worlds.Inv(w) && v in w.peers && w.polls.booths[v].role.Candidate?
    ensures w.polls.booths[v].votes <= w.peers.Keys
  {
    hide PeerOk, ReignOk, LeadOk, ChoiceOk, CrownOk;
    assert BoothOk(w.polls, v);
    forall u | u in w.polls.booths[v].votes ensures u in w.peers {
      assert Voted(w.polls, u, w.polls.booths[v].term, v);
    }
  }

  lemma ElectedMirrors(w: World, v: NodeId, n: Node)
    requires Shape(w) && Mirrors(w, v, n) && n.role.Candidate?
    ensures var x := Elected(w, v, FreshProgress(n.peers, n.log.LastIndex()).matchIndex);
            Mirrors(x, v, TakeOffice(n)) && OnlyMoved(w, x, v)
  {
    hide Compacts, Distinct;
    assert Elected(w, v, FreshProgress(n.peers, n.log.LastIndex()).matchIndex).peers.Keys == w.peers.Keys;
  }

  lemma VoteRequestsOk(w: World, v: NodeId, n: Node)
    requires Mirrors(w, v, n) && n.currentTerm in w.peers[v].stood && w.peers[v].stood[n.currentTerm] == w.peers[v].log
    ensures OutboxOk(w, v, VoteRequests(n))
  {
    QueriesAgree(n.log, w.peers[v].log, n.log.snapshotIndex);
    assert n.log.LastTerm() == Worlds.LastTerm(w.peers[v].log);
    assert forall to :: PacketOk(w, v, to, VoteRequest(n));
  }

  lemma StandMirrors(w: World, v: NodeId, n: Node, draw: nat)
    requires Shape(w) && Mirrors(w, v, n)
    ensures var b := Stand(w.polls.booths[v], v);
            var x := Move(w, v, b, Stood(w.peers[v], b.term));
            && Mirrors(x, v, StandForElection(n, draw))
            && n.currentTerm + 1 in x.peers[v].stood && x.peers[v].stood[n.currentTerm + 1] == x.peers[v].log
  {
    hide Compacts, Distinct;
    var b := Stand(w.polls.booths[v], v);
    assert Move(w, v, b, Stood(w.peers[v], b.term)).peers.Keys == w.peers.Keys;
  }

  lemma StandSim(w: World, v: NodeId, n: Node, draw: nat) returns (x: World)
    requires Worlds.Inv(w) && Tracks(w, v, n)
    ensures Follows(w, x, v, StandForElection(n, draw))
    ensures n.currentTerm + 1 in x.peers[v].stood && x.peers[v].stood[n.currentTerm + 1] == x.peers[v].log
  {
    hide Worlds.Inv, Grows, Mirrors, OutboxOk, OnlyMoved, Shape, Stood, Move;
    MirrorFacts(w, v, n);
    InvFacts(w, v);
    var b := Stand(w.polls.booths[v], v);
    var p := Stood(w.peers[v], b.term);
    x := Move(w, v, b, p);
    StandMove(w, v);
    StandMirrors(w, v, n, draw);
    MovedOnly(w, v, b, p);
    OutboxStays(w, x, v, n.outgoing);
  }

  lemma CandidateSim(w: World, v: NodeId, n: Node, draw: nat) returns (x: World)
    requires Worlds.Inv(w) && Tracks(w, v, n)
    ensures Follows(w, x, v, BecomeCandidate(n, draw))
  {
    hide Worlds.Inv, Grows, PacketOk, Compacts, BecomeLeader, MajoritySize, VoteRequests, OnlyMoved, Elements, Distinct;
    var c := StandForElection(n, draw);
    var y := StandSim(w, v, n, draw);
    if |c.votes| >= MajoritySize(c) {
      x := ElectSim(y, v, c);
    } else {
      x := y;
      VoteRequestsOk(y, v, c);
      SendSim(y, v, c, c.(outgoing := c.outgoing + VoteRequests(c)), VoteRequests(c));
    }
    FollowsTransitive(w, y, x, v, c, BecomeCandidate(n, draw));
  }

  lemma TickSim(w: World, v: NodeId, n: Node, draw: nat) returns (x: World)
    requires Worlds.Inv(w) && Tracks(w, v, n)
    ensures Follows(w, x, v, Tick(n, draw))
  {
    hide Worlds.Inv, Grows, PacketOk, Compacts, BecomeCandidate, BroadcastAppend, Elements, Distinct, OutboxOk, Follows;
    GrowsReflexive(w);
    if n.role.Leader? {
      x := w;
      var m := n.(heartbeatElapsed := n.heartbeatElapsed + 1);
      if m.heartbeatElapsed >= m.config.heartbeatTicks {
        BroadcastSim(w, v, m.(heartbeatElapsed := 0));
      } else {
        IdleSim(w, v, n, m);
      }
    } else {
      var m := n.(electionElapsed := n.electionElapsed + 1);
      if m.electionElapsed >= m.electionTimeout {
        x := CandidateSim(w, v, m, draw);
      } else {
        x := w;
        IdleSim(w, v, n, m);
      }
    }
  }
}
