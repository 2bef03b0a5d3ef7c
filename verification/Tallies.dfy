/** Who wins an election: exactly a candidate to which the grants of a majority have been delivered. */
module Tallies {
  import opened Basics
  import opened Messages
  import opened Logs
  import opened Nodes
  import opened Clusters
  import opened Exactness
  import History

  // ---- One node ------------------------------------------------------------

  /** The whole cluster, as the node sees it. */
  function Members(n: Node): set<NodeId> {
    Elements(n.peers) + {n.id}
  }

  predicate KnowsMembers(n: Node) {
    Distinct(n.peers) && n.id !in n.peers
  }

  /** Counting votes against `MajoritySize` is asking for a majority. */
  lemma MajorityCounts(n: Node, voters: set<NodeId>)
    requires KnowsMembers(n) && voters <= Members(n)
    ensures |voters| >= MajoritySize(n) <==> Majority(Members(n), voters)
  {
    DistinctCount(n.peers);
    assert |Members(n)| == |n.peers| + 1;
  }

  /** A candidate that handles a granted vote of its term leads afterwards if and only if that completes a
      majority; otherwise it stays a candidate and keeps the vote. */
  lemma TallyExactly(n: Node, m: Message)
    requires KnowsMembers(n) && n.role.Candidate? && m.RequestVoteReply? && m.term == n.currentTerm && m.voteGranted
    requires n.votes + {m.voterId} <= Members(n)
    ensures var t := HandleRequestVoteReply(n, m);
            && (t.role.Leader? <==> Majority(Members(n), n.votes + {m.voterId}))
            && (!t.role.Leader? ==> t == n.(votes := n.votes + {m.voterId}))
  {
    hide BecomeLeader, Majority, MajoritySize;
    var c := n.(votes := n.votes + {m.voterId});
    OfficeKeeps(c);
    MajorityCounts(c, c.votes);
  }

  /** Standing for election wins at once if and only if one's own vote is a majority; otherwise every peer
      is asked, in order. */
  lemma StandExactly(n: Node, draw: nat)
    requires KnowsMembers(n)
    ensures var c := BecomeCandidate(n, draw);
            && c.currentTerm == n.currentTerm + 1 && c.votes == {n.id}
            && (c.role.Leader? <==> Majority(Members(n), {n.id})) && (!c.role.Leader? ==> c.role.Candidate?)
            && (!c.role.Leader? ==>
                  && |c.outgoing| == |n.outgoing| + |n.peers| && n.outgoing <= c.outgoing
                  && forall k :: |n.outgoing| <= k < |c.outgoing| ==>
                       c.outgoing[k] ==
                         Envelope(n.peers[k - |n.outgoing|],
                                  RequestVote(c.currentTerm, n.id, n.log.LastIndex(), n.log.LastTerm())))
  {
    hide BecomeLeader, Majority, MajoritySize;
    var s := StandForElection(n, draw);
    OfficeKeeps(s);
    OfficeKeepsVotes(s);
    MajorityCounts(s, s.votes);
    var c := BecomeCandidate(n, draw);
    if !c.role.Leader? {
      assert c.outgoing == n.outgoing + VoteRequests(s);
      forall k | |n.outgoing| <= k < |c.outgoing|
        ensures c.outgoing[k] == Envelope(n.peers[k - |n.outgoing|], VoteRequest(s))
      {
        assert c.outgoing[k] == VoteRequests(s)[k - |n.outgoing|];
      }
    }
  }

  lemma OfficeKeepsVotes(n: Node)
    ensures BecomeLeader(n).votes == n.votes
  {
    hide CommitPoint, Appends;
  }

  // ---- One event -----------------------------------------------------------

  /** The event hands `v` a granted vote of term `t`. */
  predicate Brings(e: Event, v: NodeId, t: nat) {
    && e.Delivers? && e.packet.to == v
    && e.packet.message.RequestVoteReply? && e.packet.message.term == t && e.packet.message.voteGranted
  }

  /** The event neither changes the node's part in the election of its term nor brings it a vote. */
  predicate Uninvolved(n: Node, m: Node) {
    m.role == n.role && m.votes == n.votes && m.currentTerm == n.currentTerm
  }

  lemma TickTally(n: Node, draw: nat)
    requires KnowsMembers(n)
    ensures var m := Tick(n, draw);
            || Uninvolved(n, m)
            || (&& !n.role.Leader? && m.currentTerm == n.currentTerm + 1 && m.votes == {n.id} && !m.role.Follower?
                && (m.role.Leader? <==> Majority(Members(n), {n.id})))
  {
    hide BecomeCandidate, AppendFor, Majority;
    StandExactly(n.(electionElapsed := n.electionElapsed + 1), draw);
  }

  lemma StepTally(n: Node, from: NodeId, m: Message, draw: nat)
    ensures var s := Step(n, from, m, draw);
            || s.role.Follower?
            || Uninvolved(n, s)
            || (&& n.role.Candidate? && m.RequestVoteReply? && m.term == n.currentTerm && m.voteGranted
                && s == HandleRequestVoteReply(n, m))
  {
    hide BecomeLeader, CommitPoint, AppendFor, Log.Matches, Log.Splice, UpToDate, HandleRequestVoteReply;
    NotCounting(Heed(n, m.term, draw), m);
  }

  lemma NotCounting(n: Node, m: Message)
    ensures m.RequestVoteReply? && !(n.role.Candidate? && m.term == n.currentTerm && m.voteGranted) ==>
              HandleRequestVoteReply(n, m) == n
  {
    hide BecomeLeader;
  }

  /** How a node that does not follow came to that: it went on as it was, it just stood, or a vote it was
      handed completed or did not complete a majority. */
  lemma ActedTally(n: Node, e: Event)
    requires KnowsMembers(n) && n.id == Actor(e)
    requires n.role.Candidate? && Brings(e, n.id, n.currentTerm) ==> n.votes + {e.packet.message.voterId} <= Members(n)
    ensures var m := Acted(n, e);
            || m.role.Follower?
            || (Uninvolved(n, m) && (n.role.Candidate? ==> !Brings(e, n.id, n.currentTerm)))
            || (&& e.Ticks? && m.currentTerm == n.currentTerm + 1 && m.votes == {n.id}
                && (m.role.Leader? <==> Majority(Members(n), {n.id})))
            || (&& n.role.Candidate? && Brings(e, n.id, n.currentTerm) && m.currentTerm == n.currentTerm
                && (m.role.Leader? <==> Majority(Members(n), n.votes + {e.packet.message.voterId}))
                && (!m.role.Leader? ==> m.votes == n.votes + {e.packet.message.voterId}))
  {
    hide Tick, Step, Propose, TakeReady, Majority;
    match e
    case Ticks(_, draw) => TickTally(n, draw);
    case Delivers(p, draw) =>
      StepTally(n, p.from, p.message, draw);
      if n.role.Candidate? && Brings(e, n.id, n.currentTerm) {
        TallyExactly(n, p.message);
        StepCounts(n, p.from, p.message, draw);
        TallyKeepsTerm(n, p.message);
      }
    case Proposes(_, command) => ProposeTally(n, command);
    case Drains(_, _) => DrainTally(n);
  }

  lemma StepCounts(n: Node, from: NodeId, m: Message, draw: nat)
    requires m.RequestVoteReply? && m.term == n.currentTerm
    ensures Step(n, from, m, draw) == HandleRequestVoteReply(n, m)
  {
    hide HandleRequestVoteReply;
  }

  lemma TallyKeepsTerm(n: Node, m: Message)
    requires m.RequestVoteReply?
    ensures HandleRequestVoteReply(n, m).currentTerm == n.currentTerm
  {
    hide BecomeLeader;
    OfficeKeeps(n.(votes := n.votes + {m.voterId}));
  }

  lemma ProposeTally(n: Node, command: Command)
    ensures Uninvolved(n, Propose(n, command).0)
  {
    hide CommitPoint, Appends;
  }

  lemma DrainTally(n: Node)
    ensures Uninvolved(n, TakeReady(n).0)
  {
    hide CommandsIn;
  }

  // ---- Runs ----------------------------------------------------------------

  /** The nodes whose grants of term `t` were delivered to `v` in the first `i` events. */
  function GrantsTo(r: Run, i: nat, v: NodeId, t: nat): set<NodeId>
    requires i <= |r.events|
  {
    if i == 0 then {}
    else
      GrantsTo(r, i - 1, v, t) +
      if Brings(r.events[i - 1], v, t) then {r.events[i - 1].packet.message.voterId} else {}
  }

  /** A vote names its sender, a member of the cluster. */
  predicate VoteNamed(m: Message, from: NodeId) {
    m.RequestVoteReply? ==> m.voterId == from
  }

  predicate OutboxNamed(out: seq<Envelope>, from: NodeId) {
    forall k :: 0 <= k < |out| ==> VoteNamed(out[k].message, from)
  }

  ghost predicate Named(c: Cluster) {
    && Membership(c)
    && (forall v :: v in c.nodes ==> OutboxNamed(c.nodes[v].outgoing, v))
    && forall p :: p in c.net ==> p.from in c.nodes && VoteNamed(p.message, p.from)
  }

  /** The step keeps who the node is, and names it in every vote it sends. */
  predicate Signs(n: Node, m: Node) {
    m.id == n.id && m.peers == n.peers && (OutboxNamed(n.outgoing, n.id) ==> OutboxNamed(m.outgoing, n.id))
  }

  lemma OfficeSigns(n: Node)
    ensures Signs(n, BecomeLeader(n))
  {
    hide CommitPoint;
  }

  lemma TickSigns(n: Node, draw: nat)
    ensures Signs(n, Tick(n, draw))
  {
    hide BecomeLeader;
    var c := StandForElection(n.(electionElapsed := n.electionElapsed + 1), draw);
    OfficeSigns(c);
    assert VoteRequest(c).RequestVote?;
  }

  lemma StepSigns(n: Node, from: NodeId, m: Message, draw: nat)
    ensures Signs(n, Step(n, from, m, draw))
  {
    hide BecomeLeader, CommitPoint, Log.Matches, Log.Splice, UpToDate;
    var h := Heed(n, m.term, draw);
    if m.RequestVoteReply? {
      OfficeSigns(h.(votes := h.votes + {m.voterId}));
    }
  }

  lemma ActedSigns(n: Node, e: Event)
    ensures Signs(n, Acted(n, e))
  {
    hide Tick, Step, CommitPoint, CommandsIn;
    match e
    case Ticks(_, draw) => TickSigns(n, draw);
    case Delivers(p, draw) => StepSigns(n, p.from, p.message, draw);
    case Proposes(_, _) =>
    case Drains(_, _) =>
  }

  lemma PostedNamed(v: NodeId, out: seq<Envelope>, data: seq<KeyValue>, p: Packet)
    requires OutboxNamed(out, v) && p in Posted(v, out, data)
    ensures p.from == v && VoteNamed(p.message, v)
  {
    var e :| e in out && p == Packet(v, e.to, Filled(e.message, data));
    assert VoteNamed(e.message, v);
  }

  lemma AfterMembership(c: Cluster, e: Event)
    requires Membership(c) && Enabled(c, e)
    ensures Membership(After(c, e))
  {
    hide Acted, TakeReady, OutboxNamed, Distinct, Elements;
    SameMembers(c, e);
    ActedSigns(c.nodes[Actor(e)], e);
  }

  lemma AfterNamed(c: Cluster, e: Event)
    requires Named(c) && Enabled(c, e)
    ensures Named(After(c, e))
  {
    hide Acted, TakeReady, OutboxNamed, VoteNamed, Posted, Distinct, Elements;
    var v, d := Actor(e), After(c, e);
    ActedSigns(c.nodes[v], e);
    AfterMembership(c, e);
    SameMembers(c, e);
    if e.Drains? {
      DrainSends(c.nodes[v]);
      forall p | p in d.net ensures p.from in d.nodes && VoteNamed(p.message, p.from) {
        if p !in c.net {
          PostedNamed(v, c.nodes[v].outgoing, e.data, p);
        }
      }
    }
  }

  lemma {:induction false} RunNamed(r: Run, i: nat)
    requires IsRun(r) && i < |r.states|
    ensures Named(r.states[i]) && r.states[i].nodes.Keys == r.states[0].nodes.Keys
    decreases i
  {
    hide After, Enabled;
    if i > 0 {
      hide Named, Initial;
      RunNamed(r, i - 1);
      AfterNamed(r.states[i - 1], r.events[i - 1]);
      SameMembers(r.states[i - 1], r.events[i - 1]);
    }
  }

  lemma SameMembers(c: Cluster, e: Event)
    requires Enabled(c, e)
    ensures After(c, e).nodes.Keys == c.nodes.Keys
  {
    hide Acted, TakeReady;
  }

  /** Nobody gets votes of a term still to come. */
  lemma {:induction false} GrantsArePast(r: Run, i: nat, v: NodeId, t: nat)
    requires IsRun(r) && i < |r.states| && v in r.states[i].nodes && t > r.states[i].nodes[v].currentTerm
    ensures GrantsTo(r, i, v, t) == {}
    decreases i
  {
    hide Acted, After, Enabled, Initial;
    if i > 0 {
      var e := r.events[i - 1];
      History.AfterNode(r.states[i - 1], e, v);
      History.ActedFollows(r.states[i - 1].nodes[v], e);
      GrantsArePast(r, i - 1, v, t);
    }
  }

  /** Votes come from members. */
  lemma {:induction false} GrantsAreMembers(r: Run, i: nat, v: NodeId, t: nat)
    requires IsRun(r) && i < |r.states|
    ensures GrantsTo(r, i, v, t) <= r.states[0].nodes.Keys
    decreases i
  {
    hide Acted, After, Initial, OutboxNamed;
    if i > 0 {
      GrantsAreMembers(r, i - 1, v, t);
      RunNamed(r, i - 1);
    }
  }

  /** The tally of a candidate is what was delivered to it, and no majority; a leader's is one. */
  predicate Tallied(n: Node, grants: set<NodeId>) {
    match n.role
    case Candidate => n.votes == grants && !Majority(Members(n), grants)
    case Leader => Majority(Members(n), grants)
    case Follower => true
  }

  /** One event of the node itself; `before` and `after` are the grants of its term. */
  lemma TalliedOn(n: Node, e: Event, before: set<NodeId>, after: set<NodeId>)
    requires KnowsMembers(n) && n.id == Actor(e) && Tallied(n, before) && before <= after <= Members(n)
    requires Acted(n, e).currentTerm == n.currentTerm
    requires after == before + if Brings(e, n.id, n.currentTerm) then {e.packet.message.voterId} else {}
    ensures Tallied(Acted(n, e), after)
  {
    hide Acted, Majority;
    ActedSigns(n, e);
    ActedTally(n, e);
    if Majority(Members(n), before) {
      MajorityGrows(Members(n), before, after);
    }
  }

  /** An event that ends in another term. */
  lemma TalliedAnew(n: Node, e: Event)
    requires KnowsMembers(n) && n.id == Actor(e) && Acted(n, e).currentTerm != n.currentTerm
    ensures Tallied(Acted(n, e), {n.id}) && (!Acted(n, e).role.Follower? ==> e.Ticks?)
  {
    hide Acted, Majority;
    ActedSigns(n, e);
    if n.role.Candidate? && Brings(e, n.id, n.currentTerm) {
      StepCounts(n, e.packet.from, e.packet.message, e.draw);
      TallyKeepsTerm(n, e.packet.message);
      ActedIsStep(n, e);
    } else {
      ActedTally(n, e);
    }
  }

  lemma ActedIsStep(n: Node, e: Event)
    requires e.Delivers?
    ensures Acted(n, e) == Step(n, e.packet.from, e.packet.message, e.draw)
  {
    hide Step;
  }

  lemma MembersAre(c: Cluster, v: NodeId)
    requires Membership(c) && v in c.nodes
    ensures KnowsMembers(c.nodes[v]) && Members(c.nodes[v]) == c.nodes.Keys && c.nodes[v].id == v
  {
    assert v !in Elements(c.nodes[v].peers);
  }

  lemma TalliedNext(r: Run, i: nat, v: NodeId)
    requires IsRun(r) && i < |r.events| && v in r.states[i].nodes && v == Actor(r.events[i])
    requires Tallied(r.states[i].nodes[v], {v} + GrantsTo(r, i, v, r.states[i].nodes[v].currentTerm))
    ensures var m := Acted(r.states[i].nodes[v], r.events[i]);
            Tallied(m, {v} + GrantsTo(r, i + 1, v, m.currentTerm))
  {
    hide Acted, After, Enabled, Tallied, OutboxNamed, VoteNamed, KnowsMembers, Members, Initial;
    var n, e := r.states[i].nodes[v], r.events[i];
    var m := Acted(n, e);
    var t := m.currentTerm;
    RunNamed(r, i);
    MembersAre(r.states[i], v);
    if t == n.currentTerm {
      GrantsAreMembers(r, i + 1, v, t);
      TalliedOn(n, e, {v} + GrantsTo(r, i, v, t), {v} + GrantsTo(r, i + 1, v, t));
    } else {
      TalliedAnew(n, e);
      History.ActedFollows(n, e);
      if m.role.Follower? {
        FollowerTallied(m, {v} + GrantsTo(r, i + 1, v, t));
      } else {
        GrantsArePast(r, i, v, t);
        assert {v} + GrantsTo(r, i + 1, v, t) == {v};
      }
    }
  }

  lemma {:induction false} RunTallied(r: Run, i: nat, v: NodeId)
    requires IsRun(r) && i < |r.states| && v in r.states[i].nodes
    ensures Tallied(r.states[i].nodes[v], {v} + GrantsTo(r, i, v, r.states[i].nodes[v].currentTerm))
    decreases i
  {
    hide Acted, After, Enabled, Tallied;
    if i == 0 {
      FreshTallied(r, v);
    } else {
      var c, e := r.states[i - 1], r.events[i - 1];
      History.AfterNode(c, e, v);
      RunTallied(r, i - 1, v);
      if v == Actor(e) {
        TalliedNext(r, i - 1, v);
      } else {
        var t := c.nodes[v].currentTerm;
        assert !Brings(e, v, t);
        assert GrantsTo(r, i, v, t) == GrantsTo(r, i - 1, v, t);
      }
    }
  }

  lemma FollowerTallied(n: Node, grants: set<NodeId>)
    requires n.role.Follower?
    ensures Tallied(n, grants)
  {
  }

  lemma FreshTallied(r: Run, v: NodeId)
    requires IsRun(r) && v in r.states[0].nodes
    ensures r.states[0].nodes[v].role.Follower?
    ensures Tallied(r.states[0].nodes[v], {v} + GrantsTo(r, 0, v, r.states[0].nodes[v].currentTerm))
  {
  }

  /** Over every run: a node that stands in its term leads it if and only if the grants of a majority, its
      own vote included, have been delivered to it. */
  lemma LeadsExactly(r: Run, i: nat, v: NodeId)
    requires IsRun(r) && i < |r.states| && v in r.states[i].nodes && !r.states[i].nodes[v].role.Follower?
    ensures r.states[i].nodes[v].role.Leader? <==>
              Majority(r.states[0].nodes.Keys, {v} + GrantsTo(r, i, v, r.states[i].nodes[v].currentTerm))
  {
    hide IsRun, Majority, GrantsTo, OutboxNamed, VoteNamed;
    RunTallied(r, i, v);
    RunNamed(r, i);
    MembersAre(r.states[i], v);
  }
}
