/**
 * Log matching in every run without installed snapshots that has at most one
 * leader per term, whatever followers acknowledge.
 */
module Lineage {
  import opened Basics
  import opened Messages
  import opened State
  import opened Logs
  import opened Nodes
  import opened Splicing
  import opened Emission
  import opened Worlds
  import opened Handlers
  import opened Clusters
  import opened Theorems
  import opened Exactness
  import Voting

  /** The log of each term's leader, who that leader is, and every node's full log. */
  datatype Line = Line(reigns: map<nat, Reign>, owners: map<nat, NodeId>, logs: map<NodeId, FullLog>)

  ghost predicate LineOk(x: Line) {
    && x.reigns.Keys == x.owners.Keys
    && (forall t :: t in x.reigns ==> t >= 1 && Grounded(x.reigns, x.reigns[t].log))
    && forall v :: v in x.logs ==> Grounded(x.reigns, x.logs[v])
  }

  ghost predicate Carries(x: Line, v: NodeId, n: Node) {
    && v in x.logs && n.id == v && v !in n.peers && Compacts(n.log, x.logs[v])
    && x.reigns.Keys == x.owners.Keys
    && (forall t :: t in x.owners && x.owners[t] == v ==> t <= n.currentTerm)
    && match n.role
       case Leader =>
         n.currentTerm in x.owners && x.owners[n.currentTerm] == v && x.reigns[n.currentTerm].log == x.logs[v]
       case Candidate => n.currentTerm >= 1 && (n.currentTerm in x.owners ==> x.owners[n.currentTerm] != v)
       case Follower => n.currentTerm in x.owners ==> x.owners[n.currentTerm] != v
  }

  /** An append in flight is a stretch of its sender's reign, or probes beyond its end. */
  ghost predicate AppendFits(x: Line, from: NodeId, m: Message)
    requires m.AppendEntries?
  {
    && m.term in x.reigns && m.term in x.owners && x.owners[m.term] == from && m.leaderId == from
    && var log := x.reigns[m.term].log;
       || (m.prevLogIndex > 0 && m.prevLogTerm == 0)
       || (SegmentOf(log, m.prevLogIndex, m.entries) && m.prevLogTerm == TermOf(log, m.prevLogIndex))
  }

  ghost predicate Fits(x: Line, from: NodeId, to: NodeId, m: Message) {
    && (m.AppendEntries? || m.AppendEntriesReply? ==> to != from)
    && (m.AppendEntries? ==> AppendFits(x, from, m))
  }

  ghost predicate OutboxFits(x: Line, v: NodeId, outgoing: seq<Envelope>) {
    forall k :: 0 <= k < |outgoing| ==> Fits(x, v, outgoing[k].to, outgoing[k].message)
  }

  ghost predicate LineGrows(x: Line, y: Line) {
    && x.logs.Keys == y.logs.Keys && x.reigns.Keys == x.owners.Keys && y.reigns.Keys == y.owners.Keys
    && forall t :: t in x.reigns ==>
         && t in y.reigns && y.owners[t] == x.owners[t]
         && Agree(x.reigns[t].log, y.reigns[t].log, |x.reigns[t].log|)
  }

  lemma GroundedLine(x: Line, y: Line, l: FullLog)
    requires LineGrows(x, y) && Grounded(x.reigns, l)
    ensures Grounded(y.reigns, l)
  {
  }

  lemma FitsStays(x: Line, y: Line, from: NodeId, to: NodeId, m: Message)
    requires LineGrows(x, y) && Fits(x, from, to, m)
    ensures Fits(y, from, to, m)
  {
    if m.AppendEntries? {
      assert Agree(x.reigns[m.term].log, y.reigns[m.term].log, |x.reigns[m.term].log|);
    }
  }

  lemma OutboxFitsStays(x: Line, y: Line, v: NodeId, outgoing: seq<Envelope>)
    requires LineGrows(x, y) && OutboxFits(x, v, outgoing)
    ensures OutboxFits(y, v, outgoing)
  {
    hide LineGrows, Fits;
    forall k | 0 <= k < |outgoing| ensures Fits(y, v, outgoing[k].to, outgoing[k].message) {
      FitsStays(x, y, v, outgoing[k].to, outgoing[k].message);
    }
  }

  lemma LineGrowsTransitive(x: Line, y: Line, z: Line)
    requires LineGrows(x, y) && LineGrows(y, z)
    ensures LineGrows(x, z)
  {
    forall t | t in x.reigns ensures Agree(x.reigns[t].log, z.reigns[t].log, |x.reigns[t].log|) {
      assert Agree(x.reigns[t].log, y.reigns[t].log, |x.reigns[t].log|);
      assert Agree(y.reigns[t].log, z.reigns[t].log, |y.reigns[t].log|);
    }
  }

  // ---- What a step sends ---------------------------------------------------

  /** A message queued by node `m`: an append only by a leader, out of its own log. */
  predicate SentBy(m: Node, e: Envelope) {
    && (e.message.AppendEntries? || e.message.AppendEntriesReply? ==> e.to != m.id)
    && (e.message.AppendEntries? ==>
          && m.role.Leader? && e.message.leaderId == m.id && e.message.term == m.currentTerm
          && e.message.prevLogIndex >= m.log.snapshotIndex
          && e.message.prevLogTerm == m.log.TermAt(e.message.prevLogIndex).GetOr(0)
          && e.message.entries == m.log.EntriesFrom(e.message.prevLogIndex + 1))
  }

  /** Everything `m` has queued beyond `out` it queued itself. */
  predicate Queued(m: Node, out: seq<Envelope>) {
    out <= m.outgoing && forall k :: |out| <= k < |m.outgoing| ==> SentBy(m, m.outgoing[k])
  }

  lemma AppendSentBy(n: Node, peer: NodeId)
    requires n.role.Leader? && peer != n.id
    ensures SentBy(n, Envelope(peer, AppendFor(n, peer)))
  {
  }

  lemma BroadcastQueued(n: Node)
    requires n.role.Leader? && n.id !in n.peers
    ensures Queued(BroadcastAppend(n), n.outgoing)
  {
    hide AppendFor;
    var b := BroadcastAppend(n);
    forall k | |n.outgoing| <= k < |b.outgoing| ensures SentBy(b, b.outgoing[k]) {
      AppendSentBy(n, n.peers[k - |n.outgoing|]);
    }
  }

  lemma LeaderQueued(n: Node)
    requires n.id !in n.peers
    ensures var m := BecomeLeader(n);
            && Queued(m, n.outgoing) && m.role.Leader? && m.log == n.log && m.currentTerm == n.currentTerm
            && m.id == n.id && m.peers == n.peers
  {
    hide BroadcastAppend, CommitPoint, SentBy;
    var o := TakeOffice(n);
    BroadcastQueued(o);
    BroadcastSilent(o);
    CommitKeepsQueue(BroadcastAppend(o), n.outgoing);
  }

  lemma CommitKeepsQueue(n: Node, out: seq<Envelope>)
    requires Queued(n, out)
    ensures Queued(AdvanceCommit(n), out)
    ensures AdvanceCommit(n) == n.(commitIndex := AdvanceCommit(n).commitIndex)
  {
    hide CommitPoint;
  }

  // ---- The shape of a step -------------------------------------------------

  /** What a step may do to role and term. */
  predicate Turns(n: Node, m: Node) {
    && m.id == n.id && m.peers == n.peers && m.currentTerm >= n.currentTerm
    && (m.role.Candidate? && m.currentTerm == n.currentTerm ==> n.role.Candidate?)
    && (m.role.Leader? && m.currentTerm == n.currentTerm ==> !n.role.Follower?)
  }

  lemma TickShape(n: Node, draw: nat)
    requires n.id !in n.peers
    ensures var m := Tick(n, draw);
            Turns(n, m) && m.log == n.log && Queued(m, n.outgoing)
            && (n.role.Leader? ==> m.role.Leader? && m.currentTerm == n.currentTerm)
            && (m.role.Leader? && !n.role.Leader? ==> m.currentTerm == n.currentTerm + 1)
  {
    hide BecomeLeader, BroadcastAppend, SentBy;
    if n.role.Leader? {
      BroadcastQueued(n.(heartbeatElapsed := 0));
      BroadcastSilent(n.(heartbeatElapsed := 0));
    } else {
      var c := StandForElection(n.(electionElapsed := n.electionElapsed + 1), draw);
      LeaderQueued(c);
      RequestsQueued(c);
    }
  }

  lemma RequestsQueued(n: Node)
    ensures Queued(n.(outgoing := n.outgoing + VoteRequests(n)), n.outgoing)
  {
    forall k | 0 <= k < |VoteRequests(n)| ensures VoteRequests(n)[k].message.RequestVote? {
      assert VoteRequests(n)[k] == Envelope(n.peers[k], VoteRequest(n));
    }
  }

  lemma ProposeShape(n: Node, command: Command)
    requires n.id !in n.peers
    ensures var m := Propose(n, command).0;
            && m.role == n.role && m.currentTerm == n.currentTerm && m.id == n.id && m.peers == n.peers
            && m.log == (if n.role.Leader? then n.log.Append([LogEntry(n.currentTerm, command)]) else n.log)
            && Queued(m, n.outgoing)
  {
    hide BroadcastAppend, CommitPoint, SentBy;
    if n.role.Leader? {
      var m := n.(log := n.log.Append([LogEntry(n.currentTerm, command)]));
      BroadcastQueued(m);
      BroadcastSilent(m);
      CommitKeepsQueue(BroadcastAppend(m), n.outgoing);
    }
  }

  lemma SendQueued(n: Node, to: NodeId, m: Message)
    requires SentBy(n, Envelope(to, m))
    ensures Queued(Send(n, to, m), n.outgoing)
  {
  }

  lemma ReplyShape(n: Node, from: NodeId, m: Message)
    requires n.id !in n.peers && from != n.id && m.AppendEntriesReply?
    ensures var s := HandleAppendEntriesReply(n, from, m);
            && s.role == n.role && s.currentTerm == n.currentTerm && s.id == n.id && s.peers == n.peers
            && s.log == n.log && Queued(s, n.outgoing)
  {
    hide CommitPoint, AppendFor, SentBy;
    if n.role.Leader? && !m.success {
      var p := n.(progress := n.progress.SetNext(from, Max(m.conflictIndex, 1)));
      AppendSentBy(p, from);
      SendQueued(p, from, AppendFor(p, from));
    }
  }

  lemma AppendShape(n: Node, m: Message, draw: nat)
    requires m.AppendEntries? && m.leaderId != n.id && m.term <= n.currentTerm
    ensures var s := HandleAppendEntries(n, m, draw);
            && s.currentTerm == n.currentTerm && s.id == n.id && s.peers == n.peers && Queued(s, n.outgoing)
            && s.role == (if m.term == n.currentTerm then Follower else n.role)
            && s.log == if Accepts(n, m) then n.log.Splice(m.prevLogIndex, m.entries) else n.log
  {
    hide Log.Splice, Log.Matches, ConflictHint;
  }

  lemma OtherShape(n: Node, from: NodeId, m: Message, draw: nat)
    requires n.id !in n.peers && m.term <= n.currentTerm
    requires !m.AppendEntries? && !m.AppendEntriesReply? && (m.InstallSnapshot? ==> m.term < n.currentTerm)
    ensures var s := Step(n, from, m, draw);
            && s.currentTerm == n.currentTerm && s.id == n.id && s.peers == n.peers
            && Queued(s, n.outgoing) && s.log == n.log
            && (s.role == n.role || (s.role.Leader? && n.role.Candidate?))
  {
    hide BecomeLeader, Nodes.UpToDate;
    if m.RequestVoteReply? {
      LeaderQueued(n.(votes := n.votes + {m.voterId}));
    }
  }

  lemma HeedFirst(n: Node, from: NodeId, m: Message, draw: nat)
    ensures Step(n, from, m, draw) == Step(Heed(n, m.term, draw), from, m, draw)
    ensures m.term <= Heed(n, m.term, draw).currentTerm
  {
    hide HandleRequestVote, HandleRequestVoteReply, HandleAppendEntries, HandleAppendEntriesReply,
      HandleInstallSnapshot, HandleInstallSnapshotReply;
  }

  lemma StepShape(n: Node, from: NodeId, m: Message, draw: nat)
    requires n.id !in n.peers && (m.InstallSnapshot? ==> m.term < n.currentTerm)
    requires (m.AppendEntriesReply? ==> from != n.id) && (m.AppendEntries? ==> m.leaderId != n.id)
    ensures var s := Step(n, from, m, draw);
            && Turns(n, s) && Queued(s, n.outgoing)
            && s.log == (if Accepts(n, m) then n.log.Splice(m.prevLogIndex, m.entries) else n.log)
            && (Accepts(n, m) ==> s.role.Follower? && s.currentTerm == m.term)
            && (s.role.Leader? ==> s.currentTerm == n.currentTerm)
            && (n.role.Leader? && s.currentTerm == n.currentTerm && !s.role.Leader? ==>
                  m.AppendEntries? && m.term == n.currentTerm)
  {
    hide Step, HandleAppendEntries, HandleAppendEntriesReply, SentBy, Queued, Log.Matches, Log.Splice;
    HeedFirst(n, from, m, draw);
    var h := Heed(n, m.term, draw);
    if m.AppendEntries? {
      AppendShape(h, m, draw);
      StepIsAppend(h, from, m, draw);
    } else if m.AppendEntriesReply? {
      ReplyShape(h, from, m);
      StepIsReply(h, from, m, draw);
    } else {
      OtherShape(h, from, m, draw);
    }
  }

  lemma StepIsAppend(n: Node, from: NodeId, m: Message, draw: nat)
    requires m.AppendEntries? && m.term <= n.currentTerm
    ensures Step(n, from, m, draw) == HandleAppendEntries(n, m, draw)
  {
    hide HandleAppendEntries;
  }

  lemma StepIsReply(n: Node, from: NodeId, m: Message, draw: nat)
    requires m.AppendEntriesReply? && m.term <= n.currentTerm
    ensures Step(n, from, m, draw) == HandleAppendEntriesReply(n, from, m)
  {
    hide HandleAppendEntriesReply;
  }

  // ---- Moves on the line ---------------------------------------------------

  /** Between the two lines only node `v` did anything. */
  ghost predicate Local(x: Line, y: Line, v: NodeId) {
    && (forall u :: u in x.logs && u != v ==> u in y.logs && y.logs[u] == x.logs[u])
    && (forall t :: t in y.owners && y.owners[t] != v ==>
          t in x.owners && t in x.reigns && t in y.reigns && y.reigns[t] == x.reigns[t])
  }

  ghost predicate Continued(x: Line, y: Line, v: NodeId, m: Node) {
    LineOk(y) && LineGrows(x, y) && Local(x, y, v) && Carries(y, v, m)
  }

  /** The log stays, and leadership is neither won nor lost within a term. */
  lemma LineStays(x: Line, v: NodeId, n: Node, m: Node)
    requires LineOk(x) && Carries(x, v, n) && Turns(n, m) && m.log == n.log
    requires m.role.Leader? ==> n.role.Leader? && m.currentTerm == n.currentTerm
    requires n.role.Leader? && m.currentTerm == n.currentTerm ==> m.role.Leader?
    ensures Continued(x, x, v, m)
  {
    hide Compacts, Grounded;
  }

  function Crown(x: Line, v: NodeId, term: nat): Line
    requires v in x.logs
  {
    Line(x.reigns[term := Reign([], x.logs[v])], x.owners[term := v], x.logs)
  }

  /** A new leader takes its log as the start of its reign. */
  lemma LineCrowned(x: Line, v: NodeId, n: Node, m: Node)
    requires LineOk(x) && Carries(x, v, n) && m.log == n.log && m.id == n.id && m.peers == n.peers
    requires m.role.Leader? && m.currentTerm >= n.currentTerm && m.currentTerm >= 1 && m.currentTerm !in x.owners
    ensures Continued(x, Crown(x, v, m.currentTerm), v, m)
  {
    hide Compacts, Grounded;
    var y := Crown(x, v, m.currentTerm);
    assert LineGrows(x, y);
    forall t | t in y.reigns ensures Grounded(y.reigns, y.reigns[t].log) {
      GroundedLine(x, y, y.reigns[t].log);
    }
    forall u | u in y.logs ensures Grounded(y.reigns, y.logs[u]) {
      GroundedLine(x, y, y.logs[u]);
    }
  }

  function Lengthen(x: Line, v: NodeId, term: nat, l: FullLog): Line {
    Line(x.reigns[term := Reign([], l)], x.owners, x.logs[v := l])
  }

  lemma GroundedOnTop(reigns: map<nat, Reign>, l: FullLog, e: LogEntry)
    requires Grounded(reigns, l) && e.term in reigns && reigns[e.term].log == l + [e]
    ensures Grounded(reigns, l + [e])
  {
    forall j | 0 <= j < |l + [e]|
      ensures (l + [e])[j].term in reigns && Agree(l + [e], reigns[(l + [e])[j].term].log, j + 1)
    {
      if j < |l| {
        assert Agree(l, reigns[l[j].term].log, j + 1);
      }
    }
  }

  lemma LineLengthened(x: Line, v: NodeId, n: Node, m: Node, e: LogEntry)
    requires LineOk(x) && Carries(x, v, n) && n.role.Leader?
    requires m.role.Leader? && m.currentTerm == n.currentTerm == e.term
    requires m.id == n.id && m.peers == n.peers && m.log == n.log.Append([e])
    ensures Continued(x, Lengthen(x, v, n.currentTerm, x.logs[v] + [e]), v, m)
  {
    hide Compacts, Grounded;
    var l := x.logs[v];
    var y := Lengthen(x, v, n.currentTerm, l + [e]);
    assert Agree(l, l + [e], |l|);
    assert LineGrows(x, y);
    AppendAgrees(n.log, l, [e]);
    GroundedLine(x, y, l);
    GroundedOnTop(y.reigns, l, e);
    forall t | t in y.reigns ensures Grounded(y.reigns, y.reigns[t].log) {
      if t != n.currentTerm {
        GroundedLine(x, y, y.reigns[t].log);
      }
    }
    forall u | u in y.logs ensures Grounded(y.reigns, y.logs[u]) {
      if u != v {
        GroundedLine(x, y, y.logs[u]);
      }
    }
  }

  /** A follower's log becomes another grounded log. */
  lemma LineReplaced(x: Line, v: NodeId, n: Node, m: Node, l: FullLog)
    requires LineOk(x) && Carries(x, v, n) && Turns(n, m) && m.role.Follower?
    requires Compacts(m.log, l) && Grounded(x.reigns, l)
    requires m.currentTerm in x.owners ==> x.owners[m.currentTerm] != v
    ensures Continued(x, x.(logs := x.logs[v := l]), v, m)
  {
    hide Compacts, Grounded;
  }

  // ---- An accepted append --------------------------------------------------

  lemma PositiveTerm(x: Line, l: FullLog, index: nat)
    requires LineOk(x) && Grounded(x.reigns, l) && 1 <= index <= |l|
    ensures TermOf(l, index) >= 1
  {
    assert l[index - 1].term in x.reigns;
  }

  lemma GroundedPrefix(reigns: map<nat, Reign>, l: FullLog, k: nat)
    requires Grounded(reigns, l) && k <= |l|
    ensures Grounded(reigns, l[..k])
  {
    forall j | 0 <= j < k ensures l[..k][j].term in reigns && Agree(l[..k], reigns[l[..k][j].term].log, j + 1) {
      assert Agree(l, reigns[l[j].term].log, j + 1);
    }
  }

  lemma AcceptedGrounded(x: Line, v: NodeId, n: Node, from: NodeId, m: Message)
    requires LineOk(x) && Carries(x, v, n) && m.AppendEntries? && AppendFits(x, from, m)
    requires n.log.Matches(m.prevLogIndex, m.prevLogTerm) && (m.prevLogIndex == 0 ==> n.log.snapshotIndex == 0)
    ensures var s := Spliced(x.logs[v], m.prevLogIndex, m.entries);
            Compacts(n.log.Splice(m.prevLogIndex, m.entries), s) && Grounded(x.reigns, s)
  {
    hide Log.Matches, Log.SpliceAt, Compacts, Grounded, Spliced, SegmentOf, Matching;
    var l, leader, prev := x.logs[v], x.reigns[m.term].log, m.prevLogIndex;
    MatchedAbove(n.log, l, prev, m.prevLogTerm);
    if prev > 0 {
      PositiveTerm(x, l, prev);
    }
    GroundedMatch(x.reigns, l, leader);
    SegmentBound(leader, prev, m.entries);
    MatchedPrefix(l, leader, prev);
    SpliceOutcome(l, leader, prev, m.entries);
    GroundedPrefix(x.reigns, leader, prev + |m.entries|);
    SpliceCompacts(n.log, l, prev, m.entries);
  }

  lemma SegmentBound(leader: FullLog, prev: nat, entries: seq<LogEntry>)
    requires SegmentOf(leader, prev, entries)
    ensures prev + |entries| <= |leader|
  {
  }

  lemma MatchedPrefix(l: FullLog, leader: FullLog, prev: nat)
    requires Matching(l, leader) && prev <= |l| && prev <= |leader| && TermOf(l, prev) == TermOf(leader, prev)
    ensures Agree(l, leader, prev)
  {
    if prev > 0 {
      assert l[prev - 1].term == leader[prev - 1].term;
    }
  }

  // ---- One event of the cluster --------------------------------------------

  ghost predicate Lined(x: Line, c: Cluster) {
    && LineOk(x) && x.logs.Keys == c.nodes.Keys && c.delivered.Keys == c.nodes.Keys
    && (forall v :: v in c.nodes ==> Carries(x, v, c.nodes[v]) && OutboxFits(x, v, c.nodes[v].outgoing))
    && forall p :: p in c.net ==> Fits(x, p.from, p.to, p.message)
  }

  lemma SentFits(y: Line, v: NodeId, m: Node, e: Envelope)
    requires Carries(y, v, m) && SentBy(m, e)
    ensures Fits(y, v, e.to, e.message)
  {
    hide Log.TermAt, Log.EntriesFrom, Compacts, SegmentOf;
    if e.message.AppendEntries? {
      SentSegment(m.log, y.logs[v], e.message.prevLogIndex);
    }
  }

  /** What a log sends after `prev` is a stretch of the full log, or comes with term 0 beyond its end. */
  lemma SentSegment(log: Log, l: FullLog, prev: nat)
    requires Compacts(log, l) && prev >= log.snapshotIndex
    ensures prev <= |l| ==> SegmentOf(l, prev, log.EntriesFrom(prev + 1))
    ensures prev <= |l| ==> log.TermAt(prev).GetOr(0) == TermOf(l, prev)
    ensures prev > |l| ==> log.TermAt(prev).GetOr(0) == 0
  {
    QueriesAgree(log, l, prev);
    if prev <= |l| {
      assert Plain(l).EntriesFrom(prev + 1) == l[prev..];
    }
  }

  lemma QueueFits(y: Line, v: NodeId, m: Node, out: seq<Envelope>)
    requires Carries(y, v, m) && OutboxFits(y, v, out) && Queued(m, out)
    ensures OutboxFits(y, v, m.outgoing)
  {
    hide Carries, Fits, SentBy;
    forall k | 0 <= k < |m.outgoing| ensures Fits(y, v, m.outgoing[k].to, m.outgoing[k].message) {
      if k < |out| {
        assert m.outgoing[k] == out[k];
      } else {
        SentFits(y, v, m, m.outgoing[k]);
      }
    }
  }

  /** The step makes the node the leader of a term it did not lead before. */
  predicate TakesOffice(n: Node, m: Node) {
    m.role.Leader? && !(n.role.Leader? && n.currentTerm == m.currentTerm)
  }

  ghost predicate OwnersGrow(x: Line, y: Line, v: NodeId, m: Node) {
    forall t :: t in y.owners ==>
      || (t in x.owners && y.owners[t] == x.owners[t])
      || (m.role.Leader? && t == m.currentTerm && y.owners[t] == v)
  }

  lemma TickLine(x: Line, v: NodeId, n: Node, draw: nat) returns (y: Line)
    requires LineOk(x) && Carries(x, v, n)
    requires var m := Tick(n, draw); TakesOffice(n, m) ==> m.currentTerm !in x.owners
    ensures var m := Tick(n, draw); Continued(x, y, v, m) && Queued(m, n.outgoing) && OwnersGrow(x, y, v, m)
  {
    hide Tick, Compacts, LineOk, Queued, Continued;
    var m := Tick(n, draw);
    TickShape(n, draw);
    if TakesOffice(n, m) {
      y := Crown(x, v, m.currentTerm);
      LineCrowned(x, v, n, m);
    } else {
      y := x;
      LineStays(x, v, n, m);
    }
  }

  lemma ProposeLine(x: Line, v: NodeId, n: Node, command: Command) returns (y: Line)
    requires LineOk(x) && Carries(x, v, n)
    ensures var m := Propose(n, command).0; Continued(x, y, v, m) && Queued(m, n.outgoing) && OwnersGrow(x, y, v, m)
  {
    hide Propose, Compacts, LineOk, Queued, Continued, Log.Append;
    var m := Propose(n, command).0;
    ProposeShape(n, command);
    if n.role.Leader? {
      var e := LogEntry(n.currentTerm, command);
      y := Lengthen(x, v, n.currentTerm, x.logs[v] + [e]);
      LineLengthened(x, v, n, m, e);
    } else {
      y := x;
      LineStays(x, v, n, m);
    }
  }

  lemma StepLine(x: Line, v: NodeId, n: Node, from: NodeId, m: Message, draw: nat) returns (y: Line)
    requires LineOk(x) && Carries(x, v, n) && Fits(x, from, v, m) && (m.InstallSnapshot? ==> m.term < n.currentTerm)
    requires Accepts(n, m) && m.prevLogIndex == 0 ==> n.log.snapshotIndex == 0
    requires var s := Step(n, from, m, draw); TakesOffice(n, s) ==> s.currentTerm !in x.owners
    ensures var s := Step(n, from, m, draw); Continued(x, y, v, s) && Queued(s, n.outgoing) && OwnersGrow(x, y, v, s)
  {
    hide Step, Compacts, LineOk, Queued, Continued, Log.Matches, Log.Splice, SegmentOf;
    var s := Step(n, from, m, draw);
    StepShape(n, from, m, draw);
    if Accepts(n, m) {
      var l := Spliced(x.logs[v], m.prevLogIndex, m.entries);
      AcceptedGrounded(x, v, n, from, m);
      y := x.(logs := x.logs[v := l]);
      LineReplaced(x, v, n, s, l);
    } else if TakesOffice(n, s) {
      y := Crown(x, v, s.currentTerm);
      LineCrowned(x, v, n, s);
    } else {
      y := x;
      LineStays(x, v, n, s);
    }
  }

  lemma DrainLine(x: Line, v: NodeId, n: Node)
    requires LineOk(x) && Carries(x, v, n)
    ensures Continued(x, x, v, TakeReady(n).0) && TakeReady(n).0.outgoing == [] && TakeReady(n).1.messages == n.outgoing
  {
    hide CommandsIn, Compacts, Log.Compact, Grounded;
    CompactAgrees(n.log, x.logs[v], Max(n.lastApplied, n.commitIndex));
  }

  lemma EventLine(x: Line, c: Cluster, e: Event) returns (y: Line)
    requires Lined(x, c) && Enabled(c, e) && SnapshotFree(c, e)
    requires TakesOffice(c.nodes[Actor(e)], Acted(c.nodes[Actor(e)], e)) ==>
               Acted(c.nodes[Actor(e)], e).currentTerm !in x.owners
    ensures var m := Acted(c.nodes[Actor(e)], e);
            && Continued(x, y, Actor(e), m) && OwnersGrow(x, y, Actor(e), m)
            && (e.Drains? ==> m.outgoing == []) && (!e.Drains? ==> Queued(m, c.nodes[Actor(e)].outgoing))
  {
    hide LineOk, Carries, Continued, Fits, Tick, Step, Propose, TakeReady, Queued, Log.Matches, DrawOk, OutboxFits;
    var v := Actor(e);
    match e {
      case Ticks(_, draw) => y := TickLine(x, v, c.nodes[v], draw);
      case Delivers(p, draw) => y := StepLine(x, v, c.nodes[v], p.from, p.message, draw);
      case Proposes(_, command) => y := ProposeLine(x, v, c.nodes[v], command);
      case Drains(_, _) => y := x; DrainLine(x, v, c.nodes[v]);
    }
  }

  lemma OthersCarry(x: Line, y: Line, v: NodeId, u: NodeId, n: Node)
    requires Carries(x, u, n) && u != v && LineGrows(x, y) && Local(x, y, v)
    ensures Carries(y, u, n)
  {
    hide Compacts;
  }

  lemma ActorFits(x: Line, y: Line, c: Cluster, e: Event)
    requires Lined(x, c) && Enabled(c, e)
    requires var m := Acted(c.nodes[Actor(e)], e);
             && Continued(x, y, Actor(e), m)
             && (e.Drains? ==> m.outgoing == []) && (!e.Drains? ==> Queued(m, c.nodes[Actor(e)].outgoing))
    ensures OutboxFits(y, Actor(e), Acted(c.nodes[Actor(e)], e).outgoing)
  {
    hide LineOk, Carries, Fits, Acted, Queued, LineGrows, Local;
    var v := Actor(e);
    OutboxFitsStays(x, y, v, c.nodes[v].outgoing);
    if !e.Drains? {
      QueueFits(y, v, Acted(c.nodes[v], e), c.nodes[v].outgoing);
    }
  }

  lemma PostedFits(x: Line, v: NodeId, messages: seq<Envelope>, data: seq<KeyValue>, p: Packet)
    requires OutboxFits(x, v, messages) && p in Posted(v, messages, data)
    ensures Fits(x, p.from, p.to, p.message)
  {
    var e :| e in messages && p == Packet(v, e.to, Filled(e.message, data));
    assert Fits(x, v, e.to, e.message);
  }

  lemma NetFits(x: Line, y: Line, c: Cluster, e: Event, p: Packet)
    requires Lined(x, c) && Enabled(c, e) && LineGrows(x, y) && p in After(c, e).net
    ensures Fits(y, p.from, p.to, p.message)
  {
    hide LineOk, Carries, Fits, Acted, Posted, LineGrows, OutboxFits, TakeReady;
    if p !in c.net {
      var n := c.nodes[Actor(e)];
      DrainLine(x, Actor(e), n);
      PostedFits(x, Actor(e), n.outgoing, e.data, p);
    }
    FitsStays(x, y, p.from, p.to, p.message);
  }

  lemma EventLined(x: Line, c: Cluster, e: Event) returns (y: Line)
    requires Lined(x, c) && Enabled(c, e) && SnapshotFree(c, e)
    requires TakesOffice(c.nodes[Actor(e)], Acted(c.nodes[Actor(e)], e)) ==>
               Acted(c.nodes[Actor(e)], e).currentTerm !in x.owners
    ensures Lined(y, After(c, e)) && LineGrows(x, y) && OwnersGrow(x, y, Actor(e), Acted(c.nodes[Actor(e)], e))
  {
    hide LineOk, Carries, Fits, Acted, Posted, TakeReady, OutboxFits, LineGrows, SnapshotFree, Queued, OwnersGrow,
      TakesOffice, DrawOk, Local;
    var v := Actor(e);
    y := EventLine(x, c, e);
    ActorFits(x, y, c, e);
    var d := After(c, e);
    SameKeys(x, y);
    forall u | u in d.nodes ensures Carries(y, u, d.nodes[u]) && OutboxFits(y, u, d.nodes[u].outgoing) {
      if u != v {
        OthersCarry(x, y, v, u, c.nodes[u]);
        OutboxFitsStays(x, y, u, c.nodes[u].outgoing);
      }
    }
    forall p | p in d.net ensures Fits(y, p.from, p.to, p.message) {
      NetFits(x, y, c, e, p);
    }
  }

  lemma SameKeys(x: Line, y: Line)
    requires LineGrows(x, y)
    ensures x.logs.Keys == y.logs.Keys
  {
  }

  // ---- Whole runs ----------------------------------------------------------

  ghost predicate Leads(c: Cluster, v: NodeId, term: nat) {
    v in c.nodes && c.nodes[v].role.Leader? && c.nodes[v].currentTerm == term
  }

  /** No snapshot is installed, and no two nodes ever lead the same term. */
  ghost predicate OneLeaderRun(r: Run) {
    && IsRun(r) && (forall i :: 0 <= i < |r.events| ==> SnapshotFree(r.states[i], r.events[i]))
    && forall i: nat, j: nat, u, v, t: nat ::
         i < |r.states| && j < |r.states| && Leads(r.states[i], u, t) && Leads(r.states[j], v, t) ==> u == v
  }

  /** Every recorded reign had its leader at some moment up to `i`. */
  ghost predicate Reigned(x: Line, r: Run, i: nat)
    requires i < |r.states|
  {
    forall t :: t in x.owners ==> exists k: nat :: k <= i && Leads(r.states[k], x.owners[t], t)
  }

  lemma FreshTerm(x: Line, r: Run, i: nat)
    requires OneLeaderRun(r) && i < |r.events| && Lined(x, r.states[i]) && Reigned(x, r, i)
    requires var v := Actor(r.events[i]); TakesOffice(r.states[i].nodes[v], Acted(r.states[i].nodes[v], r.events[i]))
    ensures Acted(r.states[i].nodes[Actor(r.events[i])], r.events[i]).currentTerm !in x.owners
  {
    hide Lined, Acted, SnapshotFree, Initial, TakesOffice, After, Enabled;
    RunEnabled(r, i);
    var v := Actor(r.events[i]);
    var n, m := r.states[i].nodes[v], Acted(r.states[i].nodes[v], r.events[i]);
    LeadsNext(r.states[i], r.events[i]);
    LinedNode(x, r.states[i], v);
    TermRises(n, r.events[i]);
    NotOwned(x, v, n, m);
    assert Leads(r.states[i + 1], v, m.currentTerm);
  }

  lemma LeadsNext(c: Cluster, e: Event)
    requires Enabled(c, e) && TakesOffice(c.nodes[Actor(e)], Acted(c.nodes[Actor(e)], e))
    ensures Leads(After(c, e), Actor(e), Acted(c.nodes[Actor(e)], e).currentTerm)
  {
    hide Acted, TakeReady;
  }

  lemma LinedNode(x: Line, c: Cluster, v: NodeId)
    requires Lined(x, c) && v in c.nodes
    ensures Carries(x, v, c.nodes[v])
  {
  }

  lemma NotOwned(x: Line, v: NodeId, n: Node, m: Node)
    requires Carries(x, v, n) && m.currentTerm >= n.currentTerm && TakesOffice(n, m)
    ensures m.currentTerm in x.owners ==> x.owners[m.currentTerm] != v
  {
  }

  lemma TermRises(n: Node, e: Event)
    ensures Acted(n, e).currentTerm >= n.currentTerm
  {
    hide CommitPoint, Appends, BecomeLeader, CommandsIn, Log.Matches, Log.Splice, Nodes.UpToDate, Log.Compact,
      VoteRequests, AppendFor;
    match e
    case Ticks(_, draw) => OfficeKeeps(StandForElection(n.(electionElapsed := n.electionElapsed + 1), draw));
    case Delivers(p, draw) =>
      var h := Heed(n, p.message.term, draw);
      if p.message.RequestVoteReply? {
        OfficeKeeps(h.(votes := h.votes + {p.message.voterId}));
      }
    case Proposes(_, _) =>
    case Drains(_, _) =>
  }

  function NoReigns(c: Cluster): Line {
    Line(map[], map[], map v | v in c.nodes :: [])
  }

  lemma InitialLined(c: Cluster)
    requires Initial(c)
    ensures Lined(NoReigns(c), c)
  {
    assert NoReigns(c).logs.Keys == c.nodes.Keys;
    forall v | v in c.nodes ensures v !in c.nodes[v].peers {
      assert v !in Elements(c.nodes[v].peers);
    }
  }

  lemma ReignedOn(x: Line, y: Line, r: Run, i: nat)
    requires IsRun(r) && i < |r.events| && Reigned(x, r, i)
    requires OwnersGrow(x, y, Actor(r.events[i]), Acted(r.states[i].nodes[Actor(r.events[i])], r.events[i]))
    ensures Reigned(y, r, i + 1)
  {
    hide Acted, Initial;
    var v := Actor(r.events[i]);
    forall t | t in y.owners ensures exists k: nat :: k <= i + 1 && Leads(r.states[k], y.owners[t], t) {
      if t in x.owners && y.owners[t] == x.owners[t] {
        var k: nat :| k <= i && Leads(r.states[k], x.owners[t], t);
      } else {
        assert Leads(r.states[i + 1], v, t);
      }
    }
  }

  lemma {:induction false} RunLined(r: Run, i: nat, j: nat) returns (x: Line, y: Line)
    requires OneLeaderRun(r) && i <= j < |r.states|
    ensures Lined(x, r.states[i]) && Lined(y, r.states[j]) && LineGrows(x, y) && Reigned(y, r, j)
    decreases j
  {
    hide Lined, LineGrows, Initial, Acted, Enabled, SnapshotFree, OwnersGrow, TakesOffice, After;
    if j == 0 {
      x, y := NoReigns(r.states[0]), NoReigns(r.states[0]);
      InitialLined(r.states[0]);
      LineGrowsReflexive(x);
    } else {
      var z;
      x, z := RunLined(r, Min(i, j - 1), j - 1);
      RunEnabled(r, j - 1);
      var n := r.states[j - 1].nodes[Actor(r.events[j - 1])];
      if TakesOffice(n, Acted(n, r.events[j - 1])) {
        FreshTerm(z, r, j - 1);
      }
      y := EventLined(z, r.states[j - 1], r.events[j - 1]);
      ReignedOn(z, y, r, j - 1);
      if i == j {
        x := y;
        LineKeys(y, r.states[j]);
        LineGrowsReflexive(y);
      } else {
        LineGrowsTransitive(x, z, y);
      }
    }
  }

  lemma RunEnabled(r: Run, i: nat)
    requires IsRun(r) && i < |r.events|
    ensures Enabled(r.states[i], r.events[i]) && Actor(r.events[i]) in r.states[i].nodes
    ensures r.states[i + 1] == After(r.states[i], r.events[i])
  {
  }

  lemma LineKeys(x: Line, c: Cluster)
    requires Lined(x, c)
    ensures x.reigns.Keys == x.owners.Keys
  {
  }

  lemma LineGrowsReflexive(x: Line)
    requires x.reigns.Keys == x.owners.Keys
    ensures LineGrows(x, x)
  {
  }

  /** Log matching: with at most one leader per term and no installed snapshots, an entry of the same
      index and term means the same log up to there, between any two nodes at any two moments. */
  lemma LogMatching(r: Run, i: nat, j: nat, u: NodeId, v: NodeId, index: nat)
    requires OneLeaderRun(r) && i <= j < |r.states| && u in r.states[i].nodes && v in r.states[j].nodes
    requires var a, b := r.states[i].nodes[u].log, r.states[j].nodes[v].log;
             a.Get(index).Some? && b.Get(index).Some? && a.TermAt(index) == b.TermAt(index)
    ensures SameUpTo(r.states[i].nodes[u].log, r.states[j].nodes[v].log, index)
  {
    hide OneLeaderRun, Reigned, Grounded, Compacts, SameUpTo, OutboxFits, Fits, Matching, LineGrows;
    var a, b := r.states[i].nodes[u].log, r.states[j].nodes[v].log;
    var x, y := RunLined(r, i, j);
    assert Carries(x, u, r.states[i].nodes[u]) && Carries(y, v, r.states[j].nodes[v]);
    GroundedLine(x, y, x.logs[u]);
    GroundedMatch(y.reigns, x.logs[u], y.logs[v]);
    MatchAt(a, x.logs[u], b, y.logs[v], index);
    AgreeMeansSame(a, x.logs[u], b, y.logs[v], index);
  }

  /** Stable votes are one way to have at most one leader per term. */
  lemma StableVotesOneLeader(r: Run)
    requires VoteStableRun(r) && forall i :: 0 <= i < |r.events| ==> SnapshotFree(r.states[i], r.events[i])
    ensures OneLeaderRun(r)
  {
    hide Initial, VoteStable, SnapshotFree, Enabled, After;
    forall i: nat, j: nat, u, v, t: nat
      | i < |r.states| && j < |r.states| && Leads(r.states[i], u, t) && Leads(r.states[j], v, t)
      ensures u == v
    {
      if i <= j {
        Voting.ElectionSafety(r, i, j, u, v);
      } else {
        Voting.ElectionSafety(r, j, i, v, u);
      }
    }
  }
}
