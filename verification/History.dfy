/** What following a leader and voting twice mean in terms of the past of a run. */
module History {
  import opened Basics
  import opened Messages
  import opened Nodes
  import opened Clusters
  import opened Exactness
  import Voting

  /** The event hands `v` an append or a snapshot of term `t`. */
  predicate Hears(e: Event, v: NodeId, t: nat) {
    && e.Delivers? && e.packet.to == v && e.packet.message.term == t
    && (e.packet.message.AppendEntries? || e.packet.message.InstallSnapshot?)
  }

  /** Node `v` has heard from a leader of term `t` before moment `i`. */
  ghost predicate Heard(r: Run, i: nat, v: NodeId, t: nat)
    requires i <= |r.events|
  {
    exists k :: 0 <= k < i && Hears(r.events[k], v, t)
  }

  lemma TickFollows(n: Node, draw: nat)
    ensures var m := Tick(n, draw);
            m.currentTerm >= n.currentTerm && (FollowsLeader(m) <==> FollowsLeader(n) && m.currentTerm == n.currentTerm)
  {
    hide BecomeLeader, AppendFor, VoteRequest;
    OfficeKeeps(StandForElection(n.(electionElapsed := n.electionElapsed + 1), draw));
  }

  lemma StepFollows(n: Node, from: NodeId, m: Message, draw: nat)
    ensures var s := Step(n, from, m, draw);
            && s.currentTerm == Max(n.currentTerm, m.term)
            && (FollowsLeader(s) <==>
                  || ((m.AppendEntries? || m.InstallSnapshot?) && m.term == s.currentTerm)
                  || (FollowsLeader(n) && s.currentTerm == n.currentTerm))
  {
    hide Step, FollowsLeader;
    FollowsExactly(n, from, m, draw);
    Voting.StepOnward(n, from, m, draw);
  }

  /** One event of the node itself. */
  lemma ActedFollows(n: Node, e: Event)
    ensures var m := Acted(n, e);
            && m.currentTerm >= n.currentTerm && (e.Delivers? ==> m.currentTerm >= e.packet.message.term)
            && (FollowsLeader(m) <==>
                  Hears(e, Actor(e), m.currentTerm) || (FollowsLeader(n) && m.currentTerm == n.currentTerm))
  {
    hide Tick, Step, Propose, TakeReady;
    match e
    case Ticks(_, draw) => TickFollows(n, draw);
    case Delivers(p, draw) => StepFollows(n, p.from, p.message, draw);
    case Proposes(_, command) => ProposeFollows(n, command);
    case Drains(_, _) => DrainFollows(n);
  }

  lemma ProposeFollows(n: Node, command: Command)
    ensures var m := Propose(n, command).0;
            m.currentTerm == n.currentTerm && m.role == n.role && m.leaderId == n.leaderId
  {
    hide CommitPoint, Appends;
  }

  lemma DrainFollows(n: Node)
    ensures var m := TakeReady(n).0; m.currentTerm == n.currentTerm && m.role == n.role && m.leaderId == n.leaderId
  {
    hide CommandsIn;
  }

  lemma AfterNode(c: Cluster, e: Event, v: NodeId)
    requires Enabled(c, e)
    ensures v in After(c, e).nodes ==> v in c.nodes
    ensures v in c.nodes ==> v in After(c, e).nodes
    ensures v in c.nodes ==> After(c, e).nodes[v] == if v == Actor(e) then Acted(c.nodes[v], e) else c.nodes[v]
  {
    hide Acted, TakeReady;
  }

  /** Nobody is heard from in a term still to come. */
  lemma {:induction false} HeardIsPast(r: Run, i: nat, v: NodeId, t: nat)
    requires IsRun(r) && i < |r.states| && v in r.states[i].nodes && Heard(r, i, v, t)
    ensures t <= r.states[i].nodes[v].currentTerm
    decreases i
  {
    hide Acted, After, Enabled, Initial;
    var e := r.events[i - 1];
    var k :| 0 <= k < i && Hears(r.events[k], v, t);
    AfterNode(r.states[i - 1], e, v);
    ActedFollows(r.states[i - 1].nodes[v], e);
    if k < i - 1 {
      HeardIsPast(r, i - 1, v, t);
    }
  }

  /** Following a leader means exactly: having heard from one in the current term. */
  lemma {:induction false} FollowsMeansHeard(r: Run, i: nat, v: NodeId)
    requires IsRun(r) && i < |r.states| && v in r.states[i].nodes
    ensures FollowsLeader(r.states[i].nodes[v]) <==> Heard(r, i, v, r.states[i].nodes[v].currentTerm)
    decreases i
  {
    hide Acted, After, Enabled;
    if i > 0 {
      var c, e := r.states[i - 1], r.events[i - 1];
      AfterNode(c, e, v);
      FollowsMeansHeard(r, i - 1, v);
      ActedFollows(c.nodes[v], e);
      var t := r.states[i].nodes[v].currentTerm;
      assert Heard(r, i, v, t) <==> Heard(r, i - 1, v, t) || Hears(e, v, t);
      if Heard(r, i - 1, v, t) {
        HeardIsPast(r, i - 1, v, t);
      }
    }
  }

  // ---- Two leaders ---------------------------------------------------------

  /** At event `k` node `v`, in term `t`, grants a vote although it has heard from a leader of term `t`. */
  ghost predicate VotesAgain(r: Run, k: nat, v: NodeId, t: nat)
    requires k < |r.events| < |r.states|
  {
    var e := r.events[k];
    && e.Delivers? && e.packet.to == v && e.packet.message.RequestVote? && e.packet.message.term == t
    && v in r.states[k].nodes && r.states[k].nodes[v].currentTerm == t && Grants(r.states[k].nodes[v], e.packet.message)
    && Heard(r, k, v, t)
  }

  lemma UnstableMeansAgain(r: Run, k: nat, t: nat)
    requires IsRun(r) && k < |r.events| && !Voting.StableIn(t, r.states[k], r.events[k])
    ensures VotesAgain(r, k, Actor(r.events[k]), t)
  {
    hide Initial, After, UpToDate;
    FollowsMeansHeard(r, k, Actor(r.events[k]));
  }

  /** If two nodes ever lead term `t`, then some node granted a vote in that very term after it had heard
      from a leader of it. */
  lemma TwoLeadersMeanVoteAgain(r: Run, i: nat, j: nat, u: NodeId, v: NodeId)
    requires IsRun(r) && i <= j < |r.states| && u in r.states[i].nodes && v in r.states[j].nodes && u != v
    requires r.states[i].nodes[u].role.Leader? && r.states[j].nodes[v].role.Leader?
    requires r.states[i].nodes[u].currentTerm == r.states[j].nodes[v].currentTerm
    ensures exists k: nat, x :: k < |r.events| && VotesAgain(r, k, x, r.states[i].nodes[u].currentTerm)
  {
    hide Initial, After, Voting.StableIn, VotesAgain, Enabled;
    var t := r.states[i].nodes[u].currentTerm;
    if forall k :: 0 <= k < |r.events| ==> Voting.StableIn(t, r.states[k], r.events[k]) {
      Voting.OneLeaderInTerm(t, r, i, j, u, v);
    } else {
      var k :| 0 <= k < |r.events| && !Voting.StableIn(t, r.states[k], r.events[k]);
      UnstableMeansAgain(r, k, t);
    }
  }
}
