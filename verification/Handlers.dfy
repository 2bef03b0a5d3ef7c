/** The message handlers as moves on the world. */
module Handlers {
  import opened Basics
  import opened Messages
  import opened State
  import opened Logs
  import opened Nodes
  import opened Splicing
  import opened Election
  import opened Worlds
  import opened Moves
  import opened Commitment
  import opened Leadership
  import opened Simulation

  // ---- Proposals -----------------------------------------------------------

  lemma ExtendMirrors(w: World, v: NodeId, n: Node, command: Command)
    requires Shape(w) && Mirrors(w, v, n) && Leading(w, v)
    ensures var x := Extended(w, v, command);
            && Mirrors(x, v, n.(log := n.log.Append([LogEntry(n.currentTerm, command)])))
            && OnlyMoved(w, x, v)
  {
    hide Distinct;
    assert Extended(w, v, command).peers.Keys == w.peers.Keys;
    Logs.AppendAgrees(n.log, w.peers[v].log, [LogEntry(n.currentTerm, command)]);
  }

  lemma ProposeSim(w: World, v: NodeId, n: Node, command: Command) returns (x: World)
    requires Worlds.Inv(w) && Tracks(w, v, n)
    ensures Follows(w, x, v, Propose(n, command).0)
  {
    hide Worlds.Inv, Grows, Mirrors, OutboxOk, OnlyMoved, Shape, AdvanceCommit, BroadcastAppend, Follows;
    MirrorFacts(w, v, n);
    InvFacts(w, v);
    if n.role.Leader? {
      var m := n.(log := n.log.Append([LogEntry(n.currentTerm, command)]));
      LeaderFacts(w, v);
      var y := Extended(w, v, command);
      ExtendMove(w, v, command);
      ExtendMirrors(w, v, n, command);
      OutboxStays(w, y, v, n.outgoing);
      FollowsIntro(w, y, v, m);
      BroadcastSim(y, v, m);
      FollowsTransitive(w, y, y, v, m, BroadcastAppend(m));
      FollowsFacts(w, y, v, BroadcastAppend(m));
      x := CommitSim(y, v, BroadcastAppend(m));
      FollowsTransitive(w, y, x, v, BroadcastAppend(m), Propose(n, command).0);
    } else {
      x := w;
      IdleSim(w, v, n, n);
    }
  }

  // ---- Votes ---------------------------------------------------------------

  lemma UpToDateAgrees(log: Log, full: FullLog, candidate: FullLog)
    requires Compacts(log, full)
    ensures Nodes.UpToDate(log, |candidate|, Worlds.LastTerm(candidate)) == Worlds.UpToDate(candidate, full)
  {
    QueriesAgree(log, full, log.snapshotIndex);
  }

  lemma GrantMirrors(w: World, v: NodeId, n: Node, candidate: NodeId, draw: nat)
    requires Shape(w) && Mirrors(w, v, n) && !FollowsLeader(n)
    ensures var x := Move(w, v, Grant(w.polls.booths[v], candidate), Balloted(w.peers[v], n.currentTerm));
            && Mirrors(x, v, n.(votedFor := Some(candidate), electionElapsed := 0, electionTimeout := draw))
            && Voted(x.polls, v, n.currentTerm, candidate)
  {
    hide Compacts, Distinct;
    var x := Move(w, v, Grant(w.polls.booths[v], candidate), Balloted(w.peers[v], n.currentTerm));
    assert x.peers.Keys == w.peers.Keys;
  }

  lemma GrantSim(w: World, v: NodeId, n: Node, candidate: NodeId, draw: nat) returns (x: World)
    requires Worlds.Inv(w) && Tracks(w, v, n) && !FollowsLeader(n)
    requires n.votedFor.None? || n.votedFor == Some(candidate)
    requires candidate in w.peers && n.currentTerm in w.peers[candidate].stood
    requires Worlds.UpToDate(w.peers[candidate].stood[n.currentTerm], w.peers[v].log)
    ensures Follows(w, x, v, n.(votedFor := Some(candidate), electionElapsed := 0, electionTimeout := draw))
    ensures Voted(x.polls, v, n.currentTerm, candidate)
  {
    hide Worlds.Inv, Grows, Mirrors, OutboxOk, OnlyMoved, Shape, Balloted, Move, Voted, Worlds.UpToDate;
    MirrorFacts(w, v, n);
    InvFacts(w, v);
    var b, p := Grant(w.polls.booths[v], candidate), Balloted(w.peers[v], n.currentTerm);
    x := Move(w, v, b, p);
    GrantMove(w, v, candidate);
    GrantMirrors(w, v, n, candidate, draw);
    MovedOnly(w, v, b, p);
    OutboxStays(w, x, v, n.outgoing);
  }

  lemma SendOneSim(w: World, x: World, v: NodeId, n: Node, to: NodeId, message: Message)
    requires Follows(w, x, v, n) && PacketOk(x, v, to, message)
    ensures Follows(w, x, v, Send(n, to, message))
  {
    hide Worlds.Inv, Grows, Mirrors, OnlyMoved, PacketOk;
    var more := [Envelope(to, message)];
    assert OutboxOk(x, v, more);
    SendSim(x, v, n, Send(n, to, message), more);
  }

  /** A vote request, granted only while the node follows nobody in this term. */
  lemma VoteSim(w: World, v: NodeId, n: Node, from: NodeId, m: Message, draw: nat) returns (x: World)
    requires Worlds.Inv(w) && Tracks(w, v, n) && m.RequestVote? && PacketOk(w, from, v, m) && m.term <= n.currentTerm
    requires FollowsLeader(n) ==> !Grants(n, m)
    ensures Follows(w, x, v, HandleRequestVote(n, m, draw))
  {
    hide Worlds.Inv, Grows, Mirrors, OutboxOk, OnlyMoved, Voted, Worlds.UpToDate, Nodes.UpToDate, FollowsLeader,
      Follows, Worlds.LastTerm;
    MirrorFacts(w, v, n);
    if Grants(n, m) {
      UpToDateAgrees(n.log, w.peers[v].log, w.peers[from].stood[m.term]);
      x := GrantSim(w, v, n, from, draw);
      var g := n.(votedFor := Some(from), electionElapsed := 0, electionTimeout := draw);
      SendOneSim(w, x, v, g, from, RequestVoteReply(n.currentTerm, n.id, true));
    } else {
      x := w;
      IdleSim(w, v, n, n);
      SendOneSim(w, x, v, n, from, RequestVoteReply(n.currentTerm, n.id, false));
    }
  }

  lemma TallyMirrors(w: World, v: NodeId, n: Node, voter: NodeId)
    requires Shape(w) && Mirrors(w, v, n)
    ensures Mirrors(Move(w, v, Tally(w.polls.booths[v], voter), w.peers[v]), v, n.(votes := n.votes + {voter}))
  {
    hide Compacts, Distinct;
    assert Move(w, v, Tally(w.polls.booths[v], voter), w.peers[v]).peers.Keys == w.peers.Keys;
  }

  lemma TallySim(w: World, v: NodeId, n: Node, from: NodeId, m: Message) returns (x: World)
    requires Worlds.Inv(w) && Tracks(w, v, n) && m.RequestVoteReply? && PacketOk(w, from, v, m)
    ensures Follows(w, x, v, HandleRequestVoteReply(n, m))
  {
    hide Worlds.Inv, Grows, Mirrors, OutboxOk, OnlyMoved, Voted, Follows, Shape, Move, MajoritySize, BecomeLeader,
      Tally;
    MirrorFacts(w, v, n);
    InvFacts(w, v);
    if n.role != Candidate || m.term != n.currentTerm || !m.voteGranted {
      x := w;
      IdleSim(w, v, n, n);
    } else {
      var b := Tally(w.polls.booths[v], from);
      x := Move(w, v, b, w.peers[v]);
      var c := n.(votes := n.votes + {from});
      TallyMove(w, v, from);
      TallyMirrors(w, v, n, from);
      MovedOnly(w, v, b, w.peers[v]);
      OutboxStays(w, x, v, n.outgoing);
      FollowsIntro(w, x, v, c);
      if |c.votes| >= MajoritySize(c) {
        var y := ElectSim(x, v, c);
        FollowsTransitive(w, x, y, v, c, BecomeLeader(c));
        x := y;
      }
    }
  }

  // ---- Replies -------------------------------------------------------------

  lemma CreditMirrors(w: World, v: NodeId, n: Node, from: NodeId, k: nat, next: nat)
    requires Shape(w) && Mirrors(w, v, n)
    ensures Mirrors(Move(w, v, w.polls.booths[v], Credited(w.peers[v], from, k)), v,
                    n.(progress := n.progress.SetMatch(from, k).SetNext(from, next)))
  {
    hide Compacts, Distinct;
    assert Move(w, v, w.polls.booths[v], Credited(w.peers[v], from, k)).peers.Keys == w.peers.Keys;
  }

  lemma CreditSim(w: World, v: NodeId, n: Node, from: NodeId, k: nat) returns (x: World)
    requires Worlds.Inv(w) && Tracks(w, v, n) && n.role.Leader? && (k == 0 || Acked(w, from, n.currentTerm, k))
    ensures Follows(w, x, v, AdvanceCommit(n.(progress := n.progress.SetMatch(from, k).SetNext(from, k + 1))))
  {
    hide *;
    TracksFacts(w, v, n);
    MirrorFacts(w, v, n);
    InvFacts(w, v);
    var b, p := w.polls.booths[v], Credited(w.peers[v], from, k);
    var y := Move(w, v, b, p);
    var m := n.(progress := n.progress.SetMatch(from, k).SetNext(from, k + 1));
    CreditMove(w, v, from, k);
    CreditMirrors(w, v, n, from, k, k + 1);
    MovedOnly(w, v, b, p);
    OutboxStays(w, y, v, n.outgoing);
    FollowsIntro(w, y, v, m);
    x := CommitSim(y, v, m);
    FollowsTransitive(w, y, x, v, m, AdvanceCommit(m));
  }

  lemma NextMirrors(w: World, v: NodeId, n: Node, from: NodeId, next: nat)
    requires Mirrors(w, v, n)
    ensures Mirrors(w, v, n.(progress := n.progress.SetNext(from, next)))
  {
  }

  lemma ReplySim(w: World, v: NodeId, n: Node, from: NodeId, m: Message) returns (x: World)
    requires Worlds.Inv(w) && Tracks(w, v, n) && m.AppendEntriesReply? && PacketOk(w, from, v, m)
    ensures Follows(w, x, v, HandleAppendEntriesReply(n, from, m))
  {
    hide Worlds.Inv, Grows, Mirrors, OutboxOk, OnlyMoved, Follows, AdvanceCommit, Acked, AppendFor;
    MirrorFacts(w, v, n);
    x := w;
    if n.role != Leader || m.term != n.currentTerm {
      IdleSim(w, v, n, n);
    } else if m.success {
      x := CreditSim(w, v, n, from, m.matchIndex);
    } else {
      var s := n.(progress := n.progress.SetNext(from, Max(m.conflictIndex, 1)));
      NextMirrors(w, v, n, from, Max(m.conflictIndex, 1));
      IdleSim(w, v, n, s);
      AppendForOk(w, v, s, from);
      SendOneSim(w, w, v, s, from, AppendFor(s, from));
    }
  }

  // ---- Appends -------------------------------------------------------------

  /** Two grounded logs match. */
  lemma GroundedMatch(reigns: map<nat, Reign>, a: FullLog, b: FullLog)
    requires Grounded(reigns, a) && Grounded(reigns, b)
    ensures Matching(a, b)
  {
    forall i | 0 <= i < |a| && i < |b| && a[i].term == b[i].term ensures Agree(a, b, i + 1) {
      assert Agree(a, reigns[a[i].term].log, i + 1);
    }
  }

  /** An accepted append with nothing of an older leader left behind it improves the log. */
  lemma SpliceImproves(w: World, l: FullLog, term: nat, prev: nat, entries: seq<LogEntry>)
    requires term in w.reigns && Grounded(w.reigns, l) && ReignOk(w, term)
    requires prev <= |l| && Segment(w.reigns[term], prev, TermOf(l, prev), entries)
    requires var s := Spliced(l, prev, entries); |s| == prev + |entries| || Worlds.LastTerm(s) == term
    ensures Improves(l, Spliced(l, prev, entries), w.reigns[term].log)
  {
    hide Spliced;
    var m, s := w.reigns[term].log, Spliced(l, prev, entries);
    GroundedMatch(w.reigns, l, m);
    assert Agree(l, m, prev) by {
      if prev > 0 {
        assert l[prev - 1].term == m[prev - 1].term;
      }
    }
    SpliceOutcome(l, m, prev, entries);
    assert Agree(s, m, |s|) by {
      if s == l && |s| != prev + |entries| {
        assert s[|s| - 1].term == term;
      }
    }
  }

  /** A plausible previous index is at or above the snapshot point. */
  lemma MatchedAbove(log: Log, full: FullLog, prev: nat, prevTerm: nat)
    requires Compacts(log, full) && log.Matches(prev, prevTerm) && (prev == 0 ==> log.snapshotIndex == 0)
    ensures log.snapshotIndex <= prev <= |full| && TermOf(full, prev) == prevTerm
  {
  }

  lemma NoZeroTerms(w: World, v: NodeId, index: nat)
    requires Worlds.Inv(w) && v in w.peers && 1 <= index <= |w.peers[v].log|
    ensures TermOf(w.peers[v].log, index) >= 1
  {
    hide HistoryOk, RoleOk, KeepOk, BallotsKeepOk, LeadOk, ChoiceOk, Election.Inv, CommitOk, Sorted, Below;
    assert PeerOk(w, v);
    assert w.peers[v].log[index - 1].term in w.reigns;
    assert ReignOk(w, w.peers[v].log[index - 1].term);
  }

  lemma SplicedAgrees(log: Log, full: FullLog, m: Message)
    requires m.AppendEntries? && Compacts(log, full) && m.prevLogIndex >= log.snapshotIndex
    ensures Compacts(log.Splice(m.prevLogIndex, m.entries), Spliced(full, m.prevLogIndex, m.entries))
    ensures var s := Spliced(full, m.prevLogIndex, m.entries);
            AckIsSound(log, m) == (|s| == m.prevLogIndex + |m.entries| || Worlds.LastTerm(s) == m.term)
  {
    hide Log.SpliceAt;
    SpliceCompacts(log, full, m.prevLogIndex, m.entries);
    var s := Spliced(full, m.prevLogIndex, m.entries);
    QueriesAgree(log.Splice(m.prevLogIndex, m.entries), s, log.Splice(m.prevLogIndex, m.entries).snapshotIndex);
  }

  lemma FollowMirrors(w: World, v: NodeId, n: Node, leader: NodeId, draw: nat)
    requires Shape(w) && Mirrors(w, v, n)
    ensures Mirrors(Move(w, v, Follow(w.polls.booths[v]), w.peers[v]), v,
                    BecomeFollower(n, n.currentTerm, Some(leader), draw))
    ensures BecomeFollower(n, n.currentTerm, Some(leader), draw).outgoing == n.outgoing
  {
    hide Compacts, Distinct;
    assert Move(w, v, Follow(w.polls.booths[v]), w.peers[v]).peers.Keys == w.peers.Keys;
  }

  lemma FollowSim(w: World, v: NodeId, n: Node, leader: NodeId, draw: nat) returns (x: World)
    requires Worlds.Inv(w) && Tracks(w, v, n)
    requires n.currentTerm in w.polls.crowns && w.polls.crowns[n.currentTerm].leader != v
    ensures Follows(w, x, v, BecomeFollower(n, n.currentTerm, Some(leader), draw))
    ensures x.peers == w.peers && x.reigns == w.reigns && x.polls.crowns == w.polls.crowns
  {
    hide *;
    TracksFacts(w, v, n);
    MirrorFacts(w, v, n);
    InvFacts(w, v);
    var b := Follow(w.polls.booths[v]);
    x := Move(w, v, b, w.peers[v]);
    MoveFacts(w, v, b, w.peers[v]);
    SamePeers(w, v, b);
    FollowMove(w, v);
    FollowMirrors(w, v, n, leader, draw);
    MovedOnly(w, v, b, w.peers[v]);
    OutboxStays(w, x, v, n.outgoing);
    FollowsIntro(w, x, v, BecomeFollower(n, n.currentTerm, Some(leader), draw));
  }

  lemma SamePeers(w: World, v: NodeId, b: Booth)
    requires v in w.peers
    ensures Move(w, v, b, w.peers[v]).peers == w.peers
  {
  }

  lemma AbsorbMirrors(w: World, v: NodeId, n: Node, log: Log, l: FullLog)
    requires Shape(w) && Mirrors(w, v, n) && Compacts(log, l)
    ensures var x := Move(w, v, w.polls.booths[v], Absorbed(w.peers[v], n.currentTerm, l));
            Mirrors(x, v, n.(log := log)) && x.peers[v].log == l && Acked(x, v, n.currentTerm, |l|)
  {
    hide Compacts, Distinct;
    assert Move(w, v, w.polls.booths[v], Absorbed(w.peers[v], n.currentTerm, l)).peers.Keys == w.peers.Keys;
  }

  lemma AbsorbSim(w: World, v: NodeId, n: Node, log: Log, l: FullLog) returns (x: World)
    requires Worlds.Inv(w) && Tracks(w, v, n) && n.role.Follower? && n.currentTerm in w.reigns && Compacts(log, l)
    requires Improves(w.peers[v].log, l, w.reigns[n.currentTerm].log)
    ensures Follows(w, x, v, n.(log := log)) && x.peers[v].log == l && Acked(x, v, n.currentTerm, |l|)
    ensures x.reigns == w.reigns
  {
    hide Worlds.Inv, Grows, Mirrors, OutboxOk, OnlyMoved, Shape, Compacts, Improves, Absorbed, Acked;
    MirrorFacts(w, v, n);
    InvFacts(w, v);
    var b, p := w.polls.booths[v], Absorbed(w.peers[v], n.currentTerm, l);
    x := Move(w, v, b, p);
    AbsorbMove(w, v, l);
    AbsorbMirrors(w, v, n, log, l);
    MovedOnly(w, v, b, p);
    OutboxStays(w, x, v, n.outgoing);
  }

  /** The commit index a follower takes over is covered by a choice its leader knows of. */
  lemma TakenCommit(w: World, term: nat, l: FullLog, commit: nat, m: Message)
    requires m.AppendEntries? && term in w.reigns && CommitOk(w, term, l, commit)
    requires CommitOk(w, term, w.reigns[term].log, m.leaderCommit)
    requires Agree(l, w.reigns[term].log, m.prevLogIndex + |m.entries|)
    requires m.leaderCommit <= m.prevLogIndex + |m.entries|
    ensures CommitOk(w, term, l, if m.leaderCommit > commit then Min(m.leaderCommit, |l|) else commit)
  {
    if m.leaderCommit > commit {
      var c :| Covers(w, c, term, w.reigns[term].log, m.leaderCommit);
      assert Covers(w, c, term, l, m.leaderCommit);
    }
  }

  /** The append passed the consistency check, so it is a stretch of the sender's reign. */
  lemma MatchedSegment(w: World, v: NodeId, n: Node, from: NodeId, m: Message)
    requires Worlds.Inv(w) && Mirrors(w, v, n) && m.AppendEntries? && AppendOk(w, from, v, m)
    requires n.log.Matches(m.prevLogIndex, m.prevLogTerm) && (m.prevLogIndex == 0 ==> n.log.snapshotIndex == 0)
    ensures n.log.snapshotIndex <= m.prevLogIndex <= |w.peers[v].log|
    ensures Segment(w.reigns[m.term], m.prevLogIndex, TermOf(w.peers[v].log, m.prevLogIndex), m.entries)
    ensures CommitOk(w, m.term, w.reigns[m.term].log, m.leaderCommit)
    ensures m.leaderCommit <= m.prevLogIndex + |m.entries|
  {
    hide Worlds.Inv, Log.Matches, Segment, CommitOk, Compacts;
    MatchedAbove(n.log, w.peers[v].log, m.prevLogIndex, m.prevLogTerm);
    if m.prevLogIndex > 0 {
      NoZeroTerms(w, v, m.prevLogIndex);
    }
  }

  lemma LogFacts(w: World, v: NodeId)
    requires Worlds.Inv(w) && v in w.peers
    ensures v in w.polls.booths && Grounded(w.reigns, w.peers[v].log)
    ensures CommitOk(w, w.polls.booths[v].term, w.peers[v].log, w.peers[v].commit)
  {
    hide HistoryOk, RoleOk, KeepOk, BallotsKeepOk, ReignOk, LeadOk, ChoiceOk, Election.Inv, Grounded, CommitOk;
    assert PeerOk(w, v);
  }

  lemma SegmentFacts(w: World, l: FullLog, term: nat, prev: nat, entries: seq<LogEntry>)
    requires term in w.reigns && Grounded(w.reigns, l) && ReignOk(w, term)
    requires prev <= |l| && Segment(w.reigns[term], prev, TermOf(l, prev), entries)
    ensures Agree(Spliced(l, prev, entries), w.reigns[term].log, prev + |entries|)
  {
    hide Spliced;
    var m := w.reigns[term].log;
    GroundedMatch(w.reigns, l, m);
    assert prev > 0 ==> l[prev - 1].term == m[prev - 1].term;
    SpliceOutcome(l, m, prev, entries);
  }

  /** The part of the append handler after the consistency check. */
  lemma AcceptSim(w: World, v: NodeId, n: Node, from: NodeId, m: Message) returns (x: World)
    requires Worlds.Inv(w) && Tracks(w, v, n) && n.role.Follower?
    requires m.AppendEntries? && AppendOk(w, from, v, m) && m.term == n.currentTerm
    requires n.log.Matches(m.prevLogIndex, m.prevLogTerm) && (m.prevLogIndex == 0 ==> n.log.snapshotIndex == 0)
    requires AckIsSound(n.log, m)
    ensures Follows(w, x, v, AcceptAppend(n, m))
    ensures Acked(x, v, n.currentTerm, AcceptAppend(n, m).log.LastIndex())
    ensures n.commitIndex <= n.log.Splice(m.prevLogIndex, m.entries).LastIndex()
  {
    hide Worlds.Inv, Grows, Mirrors, OutboxOk, OnlyMoved, Compacts, Improves, Acked, AckIsSound, Spliced, Segment,
      CommitOk, Log.Splice, Log.Matches, Follows, Agree, Grounded, ReignOk, Worlds.LastTerm;
    MirrorFacts(w, v, n);
    var l := w.peers[v].log;
    var s, log := Spliced(l, m.prevLogIndex, m.entries), n.log.Splice(m.prevLogIndex, m.entries);
    MatchedSegment(w, v, n, from, m);
    LogFacts(w, v);
    ReignBase(w, m.term);
    SplicedAgrees(n.log, l, m);
    SpliceImproves(w, l, m.term, m.prevLogIndex, m.entries);
    var y := AbsorbSim(w, v, n, log, s);
    FollowsFacts(w, y, v, n.(log := log));
    var a := AcceptAppend(n, m);
    SegmentFacts(w, l, m.term, m.prevLogIndex, m.entries);
    LogFacts(y, v);
    MirrorFacts(y, v, n.(log := log));
    CommitStays(w, y, m.term, w.reigns[m.term].log, m.leaderCommit);
    TakenCommit(y, m.term, s, n.commitIndex, m);
    LastAgrees(log, s);
    CommitWithinLog(y, m.term, s, n.commitIndex);
    x := SettleSim(y, v, n.(log := log), a.commitIndex);
    FollowsFacts(y, x, v, a);
    FollowsTransitive(w, y, x, v, n.(log := log), a);
    AckedStays(y, x, v, n.currentTerm, |s|);
  }

  /** An append from the leader of the node's term, or a stale one. */
  lemma AppendSim(w: World, v: NodeId, n: Node, from: NodeId, m: Message, draw: nat) returns (x: World)
    requires Worlds.Inv(w) && Tracks(w, v, n) && m.AppendEntries? && PacketOk(w, from, v, m) && m.term <= n.currentTerm
    requires m.term == n.currentTerm && n.log.Matches(m.prevLogIndex, m.prevLogTerm) ==>
               AckIsSound(n.log, m) && (m.prevLogIndex == 0 ==> n.log.snapshotIndex == 0)
    ensures Follows(w, x, v, HandleAppendEntries(n, m, draw))
    ensures m.term == n.currentTerm && n.log.Matches(m.prevLogIndex, m.prevLogTerm) ==>
              n.commitIndex <= n.log.Splice(m.prevLogIndex, m.entries).LastIndex()
  {
    hide Worlds.Inv, Grows, Mirrors, OutboxOk, OnlyMoved, AckIsSound, Log.Splice, Segment, CommitOk, Log.Matches,
      Follows, AcceptAppend, ConflictHint, Acked;
    if m.term < n.currentTerm {
      x := w;
      IdleSim(w, v, n, n);
      SendOneSim(w, w, v, n, from, AppendEntriesReply(n.currentTerm, n.id, false, 0, 0));
    } else {
      var f := BecomeFollower(n, m.term, Some(from), draw);
      var y := FollowSim(w, v, n, from, draw);
      FollowsFacts(w, y, v, f);
      if !f.log.Matches(m.prevLogIndex, m.prevLogTerm) {
        x := y;
        var hint := ConflictHint(f, m.prevLogIndex);
        SendOneSim(w, y, v, f, from, AppendEntriesReply(f.currentTerm, f.id, false, 0, hint));
      } else {
        var a := AcceptAppend(f, m);
        AppendStays(w, y, from, v, m);
        x := AcceptSim(y, v, f, from, m);
        FollowsTransitive(w, y, x, v, f, a);
        assert a.currentTerm == f.currentTerm by { AcceptFacts(f, m); }
        SendOneSim(w, x, v, a, from, AppendEntriesReply(a.currentTerm, a.id, true, a.log.LastIndex(), 0));
      }
    }
  }

  lemma AcceptFacts(n: Node, m: Message)
    requires m.AppendEntries?
    ensures AcceptAppend(n, m).currentTerm == n.currentTerm && AcceptAppend(n, m).id == n.id
  {
  }
}
