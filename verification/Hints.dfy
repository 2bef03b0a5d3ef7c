/** Whom a node names as its leader, which is where refused clients are sent. */
module Hints {
  import opened Basics
  import opened Messages
  import opened Logs
  import opened Nodes
  import opened Clusters
  import History
  import Tallies

  // ---- One event -----------------------------------------------------------

  /** An append or a snapshot, which only leaders send. */
  predicate FromLeader(m: Message) {
    m.AppendEntries? || m.InstallSnapshot?
  }

  /** Node `m` leads, and the message says so. */
  predicate SaysLeader(m: Node, message: Message)
    requires FromLeader(message)
  {
    m.role.Leader? && message.leaderId == m.id && message.term == m.currentTerm
  }

  /** Whatever the step queues in a leader's name, a leader queues. */
  predicate Honest(n: Node, m: Node) {
    && m.id == n.id
    && forall e :: e in m.outgoing && FromLeader(e.message) ==> e in n.outgoing || SaysLeader(m, e.message)
  }

  /** The leader named after a step from `n` to `m` that heard `heard` from a leader of the new term. */
  function Named(n: Node, m: Node, heard: Option<NodeId>): Option<NodeId> {
    if heard.Some? then heard
    else if m.role.Leader? && !n.role.Leader? then Some(m.id)
    else if m.currentTerm == n.currentTerm then n.leaderId
    else None
  }

  lemma AdvanceHonest(n: Node)
    ensures var m := AdvanceCommit(n);
            m == n.(commitIndex := m.commitIndex)
  {
    hide CommitPoint;
  }

  lemma BroadcastHonest(n: Node)
    requires n.role.Leader?
    ensures Honest(n, BroadcastAppend(n))
  {
    forall e | e in Appends(n) ensures FromLeader(e.message) && SaysLeader(n, e.message) {
      var k :| 0 <= k < |Appends(n)| && e == Appends(n)[k];
      assert e == Envelope(n.peers[k], AppendFor(n, n.peers[k]));
    }
  }

  lemma OfficeHonest(n: Node)
    ensures var m := BecomeLeader(n);
            Honest(n, m) && m.role.Leader? && m.leaderId == Some(n.id) && m.currentTerm == n.currentTerm
  {
    hide AdvanceCommit, AppendFor, Appends;
    var o := TakeOffice(n);
    BroadcastHonest(o);
    AdvanceHonest(BroadcastAppend(o));
  }

  lemma TickNames(n: Node, draw: nat)
    ensures var m := Tick(n, draw); Honest(n, m) && m.leaderId == Named(n, m, None)
  {
    hide BecomeLeader, BroadcastAppend;
    var c := StandForElection(n.(electionElapsed := n.electionElapsed + 1), draw);
    OfficeHonest(c);
    if n.role.Leader? {
      BroadcastHonest(n.(heartbeatElapsed := 0));
      BroadcastKeeps(n.(heartbeatElapsed := 0));
    } else {
      forall e | e in VoteRequests(c) ensures !FromLeader(e.message) {
        var k :| 0 <= k < |VoteRequests(c)| && e == VoteRequests(c)[k];
        assert e == Envelope(c.peers[k], VoteRequest(c));
      }
    }
  }

  lemma BroadcastKeeps(n: Node)
    ensures BroadcastAppend(n) == n.(outgoing := BroadcastAppend(n).outgoing)
  {
  }

  /** The leader a message comes from, when it is of the receiver's new term. */
  function HeardIn(m: Message, term: nat): Option<NodeId> {
    if FromLeader(m) && m.term == term then Some(m.leaderId) else None
  }

  lemma VoteNames(n: Node, m: Message)
    requires m.RequestVoteReply?
    ensures var s := HandleRequestVoteReply(n, m); Honest(n, s) && s.leaderId == Named(n, s, None)
    ensures HandleRequestVoteReply(n, m).currentTerm == n.currentTerm
    ensures !n.role.Candidate? ==> HandleRequestVoteReply(n, m) == n
  {
    hide BecomeLeader;
    OfficeHonest(n.(votes := n.votes + {m.voterId}));
  }

  lemma ReplyNames(n: Node, from: NodeId, m: Message)
    requires m.AppendEntriesReply?
    ensures var s := HandleAppendEntriesReply(n, from, m);
            Honest(n, s) && s.leaderId == n.leaderId && s.currentTerm == n.currentTerm && s.role == n.role
  {
    hide AdvanceCommit;
    AdvanceHonest(n.(progress := n.progress.SetMatch(from, m.matchIndex).SetNext(from, m.matchIndex + 1)));
  }

  lemma StepNames(n: Node, from: NodeId, m: Message, draw: nat)
    ensures var s := Step(n, from, m, draw); Honest(n, s) && s.leaderId == Named(n, s, HeardIn(m, s.currentTerm))
  {
    hide HandleAppendEntriesReply, HandleRequestVoteReply, Log.Splice, Log.Matches, UpToDate;
    var h := Heed(n, m.term, draw);
    if m.RequestVoteReply? {
      VoteNames(h, m);
    } else if m.AppendEntriesReply? {
      ReplyNames(h, from, m);
    }
  }

  /** What an event brings from a leader of the new term. */
  function HeardBy(n: Node, e: Event): Option<NodeId> {
    if e.Delivers? then HeardIn(e.packet.message, Acted(n, e).currentTerm) else None
  }

  /** After every event a node names the leader it just heard from in its term, or itself when it was just
      elected, or whom it named before in the same term, or nobody. */
  lemma NamesExactly(n: Node, e: Event)
    ensures var m := Acted(n, e); Honest(n, m) && m.leaderId == Named(n, m, HeardBy(n, e))
  {
    hide Tick, Step, Propose, TakeReady, HeardIn;
    match e
    case Ticks(_, draw) => TickNames(n, draw);
    case Delivers(p, draw) => StepNames(n, p.from, p.message, draw);
    case Proposes(_, command) => ProposeNames(n, command);
    case Drains(_, _) => DrainNames(n);
  }

  lemma ProposeNames(n: Node, command: Command)
    ensures var m := Propose(n, command).0; Honest(n, m) && m.leaderId == Named(n, m, None)
  {
    hide AdvanceCommit, BroadcastAppend;
    var o := n.(log := n.log.Append([LogEntry(n.currentTerm, command)]));
    if n.role.Leader? {
      BroadcastHonest(o);
      BroadcastKeeps(o);
      AdvanceHonest(BroadcastAppend(o));
    }
  }

  lemma DrainNames(n: Node)
    ensures var m := TakeReady(n).0; Honest(n, m) && m.leaderId == Named(n, m, None)
  {
    hide CommandsIn;
  }

  // ---- Runs ----------------------------------------------------------------

  /** Node `x` led term `t` at moment `i` or before. */
  ghost predicate Led(r: Run, i: nat, x: NodeId, t: nat)
    requires i < |r.states|
  {
    exists k :: && 0 <= k <= i && x in r.states[k].nodes
                && r.states[k].nodes[x].role.Leader? && r.states[k].nodes[x].currentTerm == t
  }

  /** Whoever a message claims to lead did lead. */
  ghost predicate ClaimOk(r: Run, i: nat, m: Message)
    requires i < |r.states|
  {
    FromLeader(m) ==> Led(r, i, m.leaderId, m.term)
  }

  ghost predicate OutboxOk(r: Run, i: nat, out: seq<Envelope>)
    requires i < |r.states|
  {
    forall e :: e in out ==> ClaimOk(r, i, e.message)
  }

  ghost predicate HintOk(r: Run, i: nat, n: Node)
    requires i < |r.states|
  {
    n.leaderId.Some? ==> Led(r, i, n.leaderId.value, n.currentTerm)
  }

  ghost predicate HintsOk(r: Run, i: nat)
    requires i < |r.states|
  {
    var c := r.states[i];
    && Membership(c)
    && (forall v :: v in c.nodes ==> HintOk(r, i, c.nodes[v]) && OutboxOk(r, i, c.nodes[v].outgoing))
    && forall p :: p in c.net ==> ClaimOk(r, i, p.message)
  }

  lemma LedStays(r: Run, i: nat, x: NodeId, t: nat)
    requires i + 1 < |r.states| && Led(r, i, x, t)
    ensures Led(r, i + 1, x, t)
  {
  }

  lemma ClaimStays(r: Run, i: nat, m: Message)
    requires i + 1 < |r.states| && ClaimOk(r, i, m)
    ensures ClaimOk(r, i + 1, m)
  {
    hide Led;
    if FromLeader(m) {
      LedStays(r, i, m.leaderId, m.term);
    }
  }

  lemma NodeStays(r: Run, i: nat, n: Node)
    requires i + 1 < |r.states| && HintOk(r, i, n) && OutboxOk(r, i, n.outgoing)
    ensures HintOk(r, i + 1, n) && OutboxOk(r, i + 1, n.outgoing)
  {
    hide Led, ClaimOk;
    if n.leaderId.Some? {
      LedStays(r, i, n.leaderId.value, n.currentTerm);
    }
    forall e | e in n.outgoing ensures ClaimOk(r, i + 1, e.message) {
      ClaimStays(r, i, e.message);
    }
  }

  lemma LeadsNow(r: Run, i: nat, x: NodeId)
    requires i < |r.states| && x in r.states[i].nodes && r.states[i].nodes[x].role.Leader?
    ensures Led(r, i, x, r.states[i].nodes[x].currentTerm)
  {
  }

  /** The node that takes the step. */
  lemma ActorHints(r: Run, i: nat)
    requires IsRun(r) && i < |r.events| && HintsOk(r, i)
    requires Membership(r.states[i + 1])
    ensures var v := Actor(r.events[i]);
            && v in r.states[i + 1].nodes
            && var m := r.states[i + 1].nodes[v]; HintOk(r, i + 1, m) && OutboxOk(r, i + 1, m.outgoing)
  {
    hide Acted, After, Led, ClaimOk, Initial, Posted, Elements, Distinct, IsRun;
    RunStep(r, i);
    var c, e := r.states[i], r.events[i];
    var v := Actor(e);
    var n, m := c.nodes[v], Acted(c.nodes[v], e);
    History.AfterNode(c, e, v);
    NamesExactly(n, e);
    NodeStays(r, i, n);
    if m.role.Leader? {
      LeadsNow(r, i + 1, v);
    }
    if HeardBy(n, e).Some? {
      ClaimStays(r, i, e.packet.message);
      ClaimMeans(r, i + 1, e.packet.message);
    }
    forall x | x in m.outgoing ensures ClaimOk(r, i + 1, x.message) {
      if x !in n.outgoing {
        SaidMeans(r, i + 1, m, x.message);
      }
    }
  }

  lemma RunStep(r: Run, i: nat)
    requires IsRun(r) && i < |r.events|
    ensures i + 1 < |r.states| && Enabled(r.states[i], r.events[i])
    ensures r.states[i + 1] == After(r.states[i], r.events[i])
  {
    hide After, Enabled, Initial;
  }

  lemma ClaimMeans(r: Run, i: nat, m: Message)
    requires i < |r.states| && ClaimOk(r, i, m) && FromLeader(m)
    ensures Led(r, i, m.leaderId, m.term)
  {
  }

  lemma SaidMeans(r: Run, i: nat, m: Node, message: Message)
    requires i < |r.states| && (FromLeader(message) ==> SaysLeader(m, message))
    requires m.role.Leader? ==> Led(r, i, m.id, m.currentTerm)
    ensures ClaimOk(r, i, message)
  {
  }

  lemma NetHints(r: Run, i: nat, p: Packet)
    requires IsRun(r) && i < |r.events| && HintsOk(r, i) && p in r.states[i + 1].net
    ensures ClaimOk(r, i + 1, p.message)
  {
    hide Acted, Led, ClaimOk, Initial, TakeReady, IsRun, Membership;
    RunStep(r, i);
    var c, e := r.states[i], r.events[i];
    if p in c.net {
      ClaimStays(r, i, p.message);
    } else {
      var n := c.nodes[e.node];
      DrainSends(n);
      var x :| x in n.outgoing && p.message == Filled(x.message, e.data);
      ClaimStays(r, i, x.message);
      FilledClaims(r, i + 1, x.message, e.data);
    }
  }

  lemma FilledClaims(r: Run, i: nat, m: Message, data: seq<KeyValue>)
    requires i < |r.states| && ClaimOk(r, i, m)
    ensures ClaimOk(r, i, Filled(m, data))
  {
    hide Led;
  }

  lemma {:induction false} RunHints(r: Run, i: nat)
    requires IsRun(r) && i < |r.states|
    ensures HintsOk(r, i)
    decreases i
  {
    hide After, Enabled, OutboxOk, HintOk, ClaimOk, Acted, Elements, Distinct;
    if i == 0 {
      InitialHints(r);
    } else {
      hide Initial, Membership;
      RunHints(r, i - 1);
      var c, e, d := r.states[i - 1], r.events[i - 1], r.states[i];
      RunStep(r, i - 1);
      Tallies.RunNamed(r, i);
      NamedMembers(d);
      ActorHints(r, i - 1);
      forall v | v in d.nodes ensures HintOk(r, i, d.nodes[v]) && OutboxOk(r, i, d.nodes[v].outgoing) {
        History.AfterNode(c, e, v);
        if v != Actor(e) {
          NodeStays(r, i - 1, c.nodes[v]);
        }
      }
      forall p | p in d.net ensures ClaimOk(r, i, p.message) {
        NetHints(r, i - 1, p);
      }
    }
  }

  lemma NamedMembers(c: Cluster)
    requires Tallies.Named(c)
    ensures Membership(c)
  {
  }

  lemma InitialHints(r: Run)
    requires |r.states| > 0 && Initial(r.states[0])
    ensures HintsOk(r, 0)
  {
  }

  /** In every run, whomever a node names as its leader did lead the node's current term by then; a leader
      names itself. */
  lemma NamedLeaderLed(r: Run, i: nat, v: NodeId)
    requires IsRun(r) && i < |r.states| && v in r.states[i].nodes && r.states[i].nodes[v].leaderId.Some?
    ensures Led(r, i, r.states[i].nodes[v].leaderId.value, r.states[i].nodes[v].currentTerm)
  {
    hide IsRun, Led, OutboxOk, ClaimOk;
    RunHints(r, i);
    assert HintOk(r, i, r.states[i].nodes[v]);
  }
}
