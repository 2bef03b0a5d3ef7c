/** How votes are answered, and that a candidate with an up-to-date log wins with the votes of a majority. */
module Elections {
  import opened Basics
  import opened Messages
  import opened State
  import opened Logs
  import opened Nodes
  import opened Tallies

  function Newest(n: Node): Envelope
    requires n.outgoing != []
  {
    n.outgoing[|n.outgoing| - 1]
  }

  // ---- The order on logs ---------------------------------------------------

  /** Log `a` is at least as up to date as log `b`. */
  predicate AtLeast(a: Log, b: Log) {
    UpToDate(b, a.LastIndex(), a.LastTerm())
  }

  /** Being at least as up to date is a total preorder: of any logs some log is a best one. */
  lemma UpToDateOrders(a: Log, b: Log, c: Log)
    ensures AtLeast(a, a) && (AtLeast(a, b) || AtLeast(b, a))
    ensures AtLeast(a, b) && AtLeast(b, c) ==> AtLeast(a, c)
    ensures AtLeast(a, b) && AtLeast(b, a) <==> a.LastTerm() == b.LastTerm() && a.LastIndex() == b.LastIndex()
  {
  }

  // ---- Answers -------------------------------------------------------------

  /** The node may still vote for `candidate` in `term`. */
  predicate Free(n: Node, term: nat, candidate: NodeId) {
    term > n.currentTerm || (term == n.currentTerm && (n.votedFor.None? || n.votedFor == Some(candidate)))
  }

  /** A vote request is answered to the candidate, and granted exactly if the node may still vote for it
      and its log is at least as up to date. */
  lemma AnswerExactly(n: Node, from: NodeId, m: Message, draw: nat)
    requires m.RequestVote?
    ensures var s := Step(n, from, m, draw);
            var granted := Free(n, m.term, m.candidateId) && UpToDate(n.log, m.lastLogIndex, m.lastLogTerm);
            && |s.outgoing| == |n.outgoing| + 1 && n.outgoing <= s.outgoing
            && Newest(s) == Envelope(m.candidateId, RequestVoteReply(Max(n.currentTerm, m.term), n.id, granted))
            && s.log == n.log && (granted ==> s.votedFor == Some(m.candidateId) && s.currentTerm == m.term)
  {
    hide UpToDate;
  }

  /** Asking again gives the same answer. */
  lemma AnswerRepeats(n: Node, from: NodeId, m: Message, draw: nat, again: nat)
    requires m.RequestVote?
    ensures var s := Step(n, from, m, draw);
            var t := Step(s, from, m, again);
            s.outgoing != [] && t.outgoing != [] && Newest(t) == Newest(s)
  {
    hide Step, UpToDate;
    AnswerExactly(n, from, m, draw);
    StillFree(n, from, m, draw);
    AnswerExactly(Step(n, from, m, draw), from, m, again);
  }

  lemma StillFree(n: Node, from: NodeId, m: Message, draw: nat)
    requires m.RequestVote?
    ensures var s := Step(n, from, m, draw);
            && s.currentTerm == Max(n.currentTerm, m.term) && s.id == n.id
            && (UpToDate(n.log, m.lastLogIndex, m.lastLogTerm) ==>
                  (Free(s, m.term, m.candidateId) <==> Free(n, m.term, m.candidateId)))
  {
    hide UpToDate;
  }

  /** Whoever sends a stale request or append is told the newer term, and steps down on hearing it. */
  lemma StaleSenderStepsDown(n: Node, from: NodeId, m: Message, draw: nat, sender: Node)
    requires (m.RequestVote? || m.AppendEntries?) && m.term < n.currentTerm && sender.currentTerm < n.currentTerm
    ensures var s := Step(n, from, m, draw);
            && s == n.(outgoing := s.outgoing) && s.outgoing != []
            && Newest(s).to == (if m.RequestVote? then m.candidateId else m.leaderId)
            && var x := Step(sender, n.id, Newest(s).message, draw); x.currentTerm == n.currentTerm && x.role.Follower?
  {
    hide UpToDate, Log.Matches, Log.Splice;
  }

  /** The node waits for no such answer: it is of an older term, or the node does not stand or lead. */
  predicate Unexpected(n: Node, m: Message) {
    match m
    case RequestVoteReply(term, _, _) => term < n.currentTerm || (term == n.currentTerm && !n.role.Candidate?)
    case AppendEntriesReply(term, _, _, _, _) => term < n.currentTerm || (term == n.currentTerm && !n.role.Leader?)
    case InstallSnapshotReply(term, _) => term < n.currentTerm || (term == n.currentTerm && !n.role.Leader?)
    case InstallSnapshot(term, _, _, _, _) => term < n.currentTerm
    case _ => false
  }

  /** An answer the node does not wait for changes nothing, and neither does a stale snapshot. */
  lemma UnexpectedIgnored(n: Node, from: NodeId, m: Message, draw: nat)
    requires Unexpected(n, m)
    ensures Step(n, from, m, draw) == n
  {
  }

  // ---- Winning -------------------------------------------------------------

  /** `voter` is asked by `c` and its answer handed to the candidate, which may have changed since. */
  function Asked(now: Node, c: Node, voter: Node, draw: nat): Node {
    var s := Step(voter, c.id, VoteRequest(c), draw);
    if s.outgoing != [] && Newest(s).to == c.id then Step(now, voter.id, Newest(s).message, draw) else now
  }

  function Canvass(c: Node, voters: seq<Node>, draw: nat): Node {
    if voters == [] then c
    else Asked(Canvass(c, voters[..|voters| - 1], draw), c, voters[|voters| - 1], draw)
  }

  function Ids(voters: seq<Node>): set<NodeId> {
    set n | n in voters :: n.id
  }

  /** The voter may vote for `c`, and will. */
  predicate Supports(c: Node, voter: Node) {
    voter.id in c.peers && Free(voter, c.currentTerm, c.id) && AtLeast(c.log, voter.log)
  }

  /** The candidate has the votes of `voters` besides those it started with. */
  predicate HasVotes(now: Node, c: Node, voters: set<NodeId>) {
    && now.currentTerm == c.currentTerm && now.id == c.id && now.peers == c.peers
    && (now.role.Leader? <==> Majority(Members(c), c.votes + voters))
    && (!now.role.Leader? ==> now.role.Candidate? && now.votes == c.votes + voters)
  }

  lemma OneMore(now: Node, c: Node, voter: Node, voters: set<NodeId>, draw: nat)
    requires KnowsMembers(c) && HasVotes(now, c, voters) && Supports(c, voter)
    requires c.votes + voters <= Members(c)
    ensures HasVotes(Asked(now, c, voter, draw), c, voters + {voter.id})
  {
    hide Step, UpToDate, Majority, HandleRequestVoteReply;
    AnswerExactly(voter, c.id, VoteRequest(c), draw);
    var m := RequestVoteReply(c.currentTerm, voter.id, true);
    StepCounts(now, voter.id, m, draw);
    assert c.votes + (voters + {voter.id}) == (c.votes + voters) + {voter.id};
    if now.role.Leader? {
      NotCounting(now, m);
      MajorityGrows(Members(c), c.votes + voters, c.votes + (voters + {voter.id}));
    } else {
      TallyExactly(now, m);
      TallyKeepsTerm(now, m);
      TallyKeepsPeers(now, m);
    }
  }

  lemma TallyKeepsPeers(n: Node, m: Message)
    requires m.RequestVoteReply?
    ensures var t := HandleRequestVoteReply(n, m); t.id == n.id && t.peers == n.peers
  {
    hide CommitPoint, Appends;
  }

  lemma {:induction false} CanvassCounts(c: Node, voters: seq<Node>, draw: nat)
    requires KnowsMembers(c) && HasVotes(c, c, {}) && c.votes <= Members(c)
    requires forall k :: 0 <= k < |voters| ==> Supports(c, voters[k])
    ensures HasVotes(Canvass(c, voters, draw), c, Ids(voters))
  {
    hide Asked, HasVotes, UpToDate;
    if voters == [] {
      assert Ids(voters) == {};
    } else {
      var last := |voters| - 1;
      var rest := voters[..last];
      CanvassCounts(c, rest, draw);
      assert voters == rest + [voters[last]];
      assert Ids(voters) == Ids(rest) + {voters[last].id};
      assert c.votes + Ids(rest) <= Members(c);
      OneMore(Canvass(c, rest, draw), c, voters[last], Ids(rest), draw);
    }
  }

  /** A candidate that asks nodes which may still vote and whose logs are no more up to date, and hears
      their answers, leads if and only if they and itself are a majority. */
  lemma SupportersElect(c: Node, voters: seq<Node>, draw: nat)
    requires KnowsMembers(c) && c.role.Candidate? && c.votes == {c.id} && !Majority(Members(c), {c.id})
    requires forall k :: 0 <= k < |voters| ==> Supports(c, voters[k])
    ensures Canvass(c, voters, draw).role.Leader? <==> Majority(Members(c), {c.id} + Ids(voters))
  {
    hide Canvass, Ids, Supports, Majority;
    assert c.votes + {} == c.votes;
    CanvassCounts(c, voters, draw);
  }

  // ---- Taking office -------------------------------------------------------

  /** Where the log ends and what is committed, with no entries. */
  function Announcement(n: Node): Message {
    AppendEntries(n.currentTerm, n.id, n.log.LastIndex(), n.log.LastTerm(), [], n.commitIndex)
  }

  /** A node that takes office tells every peer at once, in order, where its log ends and what is committed;
      with peers it commits nothing by that, and alone everything up to an entry of its term. */
  lemma OfficeAnnounces(n: Node)
    ensures var l := BecomeLeader(n);
            && l.log == n.log && l.currentTerm == n.currentTerm
            && |l.outgoing| == |n.outgoing| + |n.peers| && n.outgoing <= l.outgoing
            && (forall k :: |n.outgoing| <= k < |l.outgoing| ==>
                  l.outgoing[k] == Envelope(n.peers[k - |n.outgoing|], Announcement(n)))
            && (n.peers != [] ==> l.commitIndex == n.commitIndex)
            && (n.peers == [] && n.log.TermAt(n.log.LastIndex()) == Some(n.currentTerm) ==>
                  l.commitIndex == Max(n.commitIndex, n.log.LastIndex()))
  {
    hide AppendFor, CommitPoint;
    var o := TakeOffice(n);
    forall k | 0 <= k < |n.peers|
      ensures Appends(o)[k] == Envelope(n.peers[k], Announcement(n))
    {
      FirstAppend(n, n.peers[k]);
    }
    if n.peers != [] {
      OfficeWaits(BroadcastAppend(o));
    } else if n.log.TermAt(n.log.LastIndex()) == Some(n.currentTerm) {
      AloneCommits(BroadcastAppend(o));
    }
  }

  lemma FirstAppend(n: Node, peer: NodeId)
    requires peer in n.peers
    ensures AppendFor(TakeOffice(n), peer) == Announcement(n)
  {
    assert n.log.EntriesFrom(n.log.LastIndex() + 1) == [];
  }

  /** Nobody is known to hold anything yet. */
  lemma OfficeWaits(n: Node)
    requires n.role.Leader? && n.progress == FreshProgress(n.peers, n.log.LastIndex()) && n.peers != []
    ensures AdvanceCommit(n).commitIndex == n.commitIndex
  {
    hide CommitPoint, Log.TermAt;
    CommitPointIsGreatest(n, n.log.LastIndex());
    var r := CommitPoint(n, n.log.LastIndex());
    if r > n.commitIndex {
      NobodyHolds(n.progress, n.peers, r);
    }
  }

  /** Alone, one's own entry is held by a majority. */
  lemma AloneCommits(n: Node)
    requires n.role.Leader? && n.peers == [] && n.log.TermAt(n.log.LastIndex()) == Some(n.currentTerm)
    ensures AdvanceCommit(n).commitIndex == Max(n.commitIndex, n.log.LastIndex())
  {
    hide CommitPoint, Log.TermAt;
    CommitPointIsGreatest(n, n.log.LastIndex());
    assert Committable(n, n.log.LastIndex());
  }

  lemma {:induction false} NobodyHolds(progress: Progress, peers: seq<NodeId>, index: nat)
    requires index > 0 && forall p :: p in peers ==> progress.Matched(p) == 0
    ensures Holders(progress, peers, index) == 0
  {
    if peers != [] {
      NobodyHolds(progress, peers[..|peers| - 1], index);
    }
  }
}
