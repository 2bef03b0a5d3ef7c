/**
 * The hypotheses on runs are needed. This module plays runs of a three-node
 * cluster event by event, and the first such run: unstable votes elect two
 * leaders in one term.
 */
module Witnesses {
  import opened Basics
  import opened Messages
  import opened State
  import opened Logs
  import opened Nodes
  import opened Clusters

  // ---- Playing a run event by event ----------------------------------------

  /** Which hypotheses a run is to satisfy. */
  datatype Rules = Rules(votes: bool, acks: bool, snapshots: bool)

  const UNSTABLE_VOTES := Rules(false, true, true)

  /** A run that installs no snapshot and satisfies the chosen hypotheses. */
  predicate Keeps(r: Run, rules: Rules) {
    IsRun(r) && forall i :: 0 <= i < |r.events| ==> Fair(r.states[i], r.events[i], rules)
  }

  predicate Fair(c: Cluster, e: Event, rules: Rules) {
    && Enabled(c, e) && (e.Delivers? ==> !e.packet.message.InstallSnapshot?)
    && (rules.votes ==> VoteStable(c, e)) && (rules.acks ==> AckSound(c, e)) && (rules.snapshots ==> SnapshotFree(c, e))
  }

  function Last(r: Run): Cluster
    requires IsRun(r)
  {
    r.states[|r.events|]
  }

  lemma Play(r: Run, e: Event, rules: Rules) returns (s: Run)
    requires Keeps(r, rules) && Fair(Last(r), e, rules)
    ensures Keeps(s, rules) && Last(s) == After(Last(r), e)
  {
    hide Initial, Enabled, After, SnapshotFree, VoteStable, AckSound;
    s := Run(r.states + [After(Last(r), e)], r.events + [e]);
  }

  const CONFIG := Config(1, 1, 1, 2)

  /** The three nodes and what each has handed to its state machine. */
  datatype Cast = Cast(a: Node, b: Node, c: Node, givenA: seq<Committed>, givenB: seq<Committed>)

  datatype Who = A | B | C

  function Name(w: Who): NodeId {
    match w
    case A => "a"
    case B => "b"
    case C => "c"
  }

  function Of(t: Cast, w: Who): Node {
    match w
    case A => t.a
    case B => t.b
    case C => t.c
  }

  function Put(t: Cast, w: Who, n: Node): Cast {
    match w
    case A => t.(a := n)
    case B => t.(b := n)
    case C => t.(c := n)
  }

  function Give(t: Cast, w: Who, items: seq<Committed>): Cast {
    match w
    case A => t.(givenA := t.givenA + items)
    case B => t.(givenB := t.givenB + items)
    case C => t
  }

  /** The run satisfies the chosen hypotheses and ends with this cast. */
  predicate Stage(r: Run, rules: Rules, t: Cast) {
    && Keeps(r, rules)
    && var c := Last(r);
       && c.nodes.Keys == c.delivered.Keys == {"a", "b", "c"}
       && c.nodes["a"] == t.a && c.nodes["b"] == t.b && c.nodes["c"] == t.c
       && c.delivered["a"] == t.givenA && c.delivered["b"] == t.givenB
  }

  /** The packet is on the wire at the end of the run. */
  predicate Sent(r: Run, p: Packet) {
    IsRun(r) && p in Last(r).net
  }

  lemma Names()
    ensures "a" != "b" && "a" != "c" && "b" != "c"
  {
    assert "a"[0] != "b"[0] && "a"[0] != "c"[0] && "b"[0] != "c"[0];
  }

  lemma Ticking(r: Run, t: Cast, w: Who, n: Node, rules: Rules) returns (s: Run)
    requires Stage(r, rules, t) && Of(t, w).config == CONFIG && Tick(Of(t, w), 1) == n
    ensures Stage(s, rules, Put(t, w, n))
    ensures forall p :: Sent(r, p) ==> Sent(s, p)
  {
    hide Tick, Step, Initial, Fair, IsRun;
    Names();
    FairTick(Last(r), Name(w), rules);
    s := Play(r, Ticks(Name(w), 1), rules);
  }

  lemma FairTick(c: Cluster, v: NodeId, rules: Rules)
    requires v in c.nodes && v in c.delivered && c.nodes[v].config == CONFIG
    ensures Fair(c, Ticks(v, 1), rules)
  {
  }

  lemma Proposing(r: Run, t: Cast, w: Who, command: Command, n: Node, rules: Rules) returns (s: Run)
    requires Stage(r, rules, t) && Propose(Of(t, w), command).0 == n
    ensures Stage(s, rules, Put(t, w, n))
    ensures forall p :: Sent(r, p) ==> Sent(s, p)
  {
    hide Propose, Step, Initial, IsRun;
    Names();
    s := Play(r, Proposes(Name(w), command), rules);
  }

  /** Enough for the chosen hypotheses to hold of a delivery. */
  predicate DeliveryOk(n: Node, m: Message, rules: Rules) {
    && !m.InstallSnapshot? && (rules.snapshots ==> n.log.snapshotIndex == 0)
    && (rules.votes && m.RequestVote? ==> m.term > n.currentTerm)
    && (rules.acks && Accepts(n, m) ==> AckIsSound(n.log, m))
  }

  lemma FairDelivery(c: Cluster, p: Packet, rules: Rules)
    requires p in c.net && p.to in c.nodes && p.to in c.delivered && c.nodes[p.to].config == CONFIG
    requires DeliveryOk(c.nodes[p.to], p.message, rules)
    ensures Fair(c, Delivers(p, 1), rules)
  {
    hide Log.Splice, Log.Matches, UpToDate;
  }

  lemma Delivering(r: Run, t: Cast, from: NodeId, w: Who, m: Message, n: Node, rules: Rules) returns (s: Run)
    requires Stage(r, rules, t) && Sent(r, Packet(from, Name(w), m)) && Of(t, w).config == CONFIG
    requires Step(Of(t, w), from, m, 1) == n && DeliveryOk(Of(t, w), m, rules)
    ensures Stage(s, rules, Put(t, w, n))
    ensures forall p :: Sent(r, p) ==> Sent(s, p)
  {
    hide Step, Initial, Fair, DeliveryOk, IsRun;
    Names();
    FairDelivery(Last(r), Packet(from, Name(w), m), rules);
    s := Play(r, Delivers(Packet(from, Name(w), m), 1), rules);
  }

  lemma Draining(r: Run, t: Cast, w: Who, n: Node, items: seq<Committed>, rules: Rules) returns (s: Run)
    requires Stage(r, rules, t) && TakeReady(Of(t, w)) == (n, Ready(Of(t, w).outgoing, items))
    ensures Stage(s, rules, Give(Put(t, w, n), w, items))
    ensures forall p :: Sent(r, p) ==> Sent(s, p)
    ensures forall e :: e in Of(t, w).outgoing && !e.message.InstallSnapshot? ==>
              Sent(s, Packet(Name(w), e.to, e.message))
  {
    hide TakeReady, Step, Initial;
    Names();
    s := Play(r, Drains(Name(w), []), rules);
    var out := Of(t, w).outgoing;
    assert forall e :: e in out && !e.message.InstallSnapshot? ==>
             Packet(Name(w), e.to, e.message) in Posted(Name(w), out, []);
  }

  // ---- "a" is elected in term 1 with the vote of "b" -----------------------

  const A0 := NewNode("a", ["b", "c"], CONFIG, 1)
  const B0 := NewNode("b", ["a", "c"], CONFIG, 1)
  const C0 := NewNode("c", ["a", "b"], CONFIG, 1)

  function Standing(n: Node, term: nat, lastIndex: nat, lastTerm: nat): Node
    requires |n.peers| == 2
  {
    var request := RequestVote(term, n.id, lastIndex, lastTerm);
    n.(role := Candidate, currentTerm := term, votedFor := Some(n.id), leaderId := None, votes := {n.id},
       electionElapsed := 0, electionTimeout := 1,
       outgoing := [Envelope(n.peers[0], request), Envelope(n.peers[1], request)])
  }

  /** Standing for election from a quiet state with an uncompacted log. */
  lemma Stands(n: Node)
    requires |n.peers| == 2 && !n.role.Leader? && n.electionElapsed + 1 >= n.electionTimeout && n.outgoing == []
    ensures Tick(n, 1) == Standing(n, n.currentTerm + 1, n.log.LastIndex(), n.log.LastTerm())
  {
    var c := StandForElection(n.(electionElapsed := n.electionElapsed + 1), 1);
    assert |c.votes| == 1 && MajoritySize(c) == 2;
    assert VoteRequests(c) == [Envelope(c.peers[0], VoteRequest(c)), Envelope(c.peers[1], VoteRequest(c))];
  }

  function Elected(n: Node, voter: NodeId): Node
    requires |n.peers| == 2
  {
    var m := n.(role := Leader, leaderId := Some(n.id), votes := {n.id, voter}, heartbeatElapsed := 0,
                progress := FreshProgress(n.peers, n.log.LastIndex()));
    m.(outgoing := m.outgoing + [Envelope(n.peers[0], AppendFor(m, n.peers[0])),
                                 Envelope(n.peers[1], AppendFor(m, n.peers[1]))])
  }

  /** A fresh leader with an uncompacted log starts with empty appends at the end of its log. */
  lemma FreshAppends(n: Node, voter: NodeId)
    requires |n.peers| == 2 && n.outgoing == [] && n.log.snapshotIndex == 0 && n.log.snapshotTerm == 0
    ensures var m := AppendEntries(n.currentTerm, n.id, n.log.LastIndex(), n.log.LastTerm(), [], n.commitIndex);
            Elected(n, voter).outgoing == [Envelope(n.peers[0], m), Envelope(n.peers[1], m)]
  {
    var e := Elected(n, voter).(outgoing := []);
    assert e.progress.Next(n.peers[0]) == e.progress.Next(n.peers[1]) == n.log.LastIndex() + 1;
    assert n.log.EntriesFrom(n.log.LastIndex() + 1) == [];
  }

  /** The second of three votes elects. */
  lemma Wins(n: Node, voter: NodeId)
    requires |n.peers| == 2 && n.role.Candidate? && n.votes == {n.id} && voter != n.id
    requires n.commitIndex == 0 && n.log.snapshotIndex == 0
    requires forall i :: 0 <= i < |n.log.entries| ==> n.log.entries[i].term != n.currentTerm
    ensures Step(n, voter, RequestVoteReply(n.currentTerm, voter, true), 1) == Elected(n, voter)
  {
    hide AppendFor;
    var c := n.(votes := {n.id, voter});
    assert |c.votes| == 2 && MajoritySize(c) == 2;
    var o := TakeOffice(c);
    assert Appends(o) ==
           [Envelope(n.peers[0], AppendFor(o, n.peers[0])), Envelope(n.peers[1], AppendFor(o, n.peers[1]))];
    assert o == n.(role := Leader, leaderId := Some(n.id), votes := {n.id, voter}, heartbeatElapsed := 0,
                   progress := FreshProgress(n.peers, n.log.LastIndex()));
    assert n.votes + {voter} == {n.id, voter};
    NothingToCommit(BroadcastAppend(o), n.log.LastIndex());
  }

  lemma {:induction false} NothingToCommit(n: Node, index: nat)
    requires n.commitIndex == 0 && n.log.snapshotIndex == 0 && index <= |n.log.entries|
    requires forall i :: 0 <= i < index ==> n.log.entries[i].term != n.currentTerm
    ensures CommitPoint(n, index) == 0
  {
    if index > 0 {
      NothingToCommit(n, index - 1);
    }
  }

  /** The leader after proposing, with its new commit index. */
  function Proposed(n: Node, command: Command, commit: nat): Node
    requires |n.peers| == 2
  {
    var m := n.(log := n.log.Append([LogEntry(n.currentTerm, command)]));
    m.(commitIndex := commit,
       outgoing := m.outgoing + [Envelope(n.peers[0], AppendFor(m, n.peers[0])),
                                 Envelope(n.peers[1], AppendFor(m, n.peers[1]))])
  }

  lemma TwoPeers(progress: Progress, peers: seq<NodeId>, index: nat)
    requires |peers| == 2
    ensures Holders(progress, peers, index) ==
              (if progress.Matched(peers[0]) >= index then 1 else 0) +
              (if progress.Matched(peers[1]) >= index then 1 else 0)
  {
    assert peers[..1][..0] == [] && Holders(progress, peers[..1][..0], index) == 0;
  }

  /** The first proposal of a term commits at once if a peer is believed to hold that index. */
  lemma ProposesFirst(n: Node, command: Command)
    requires |n.peers| == 2 && n.role.Leader? && n.commitIndex == 0 && n.log.snapshotIndex == 0
    requires forall i :: 0 <= i < |n.log.entries| ==> n.log.entries[i].term != n.currentTerm
    ensures var last := |n.log.entries| + 1;
            var known := n.progress.Matched(n.peers[0]) >= last || n.progress.Matched(n.peers[1]) >= last;
            Propose(n, command).0 == Proposed(n, command, if known then last else 0)
  {
    hide AppendFor, Holders;
    var m := n.(log := n.log.Append([LogEntry(n.currentTerm, command)]));
    var last := |n.log.entries| + 1;
    assert Appends(m) ==
           [Envelope(n.peers[0], AppendFor(m, n.peers[0])), Envelope(n.peers[1], AppendFor(m, n.peers[1]))];
    var b := BroadcastAppend(m);
    TwoPeers(b.progress, b.peers, last);
    assert MajoritySize(b) == 2 && b.log.TermAt(last) == Some(n.currentTerm);
    NothingToCommit(b, last - 1);
  }

  /** A node without a vote in the candidate's term grants it. */
  lemma VotesFor(n: Node, m: Message)
    requires m.RequestVote? && m.term > n.currentTerm && UpToDate(n.log, m.lastLogIndex, m.lastLogTerm)
    ensures Step(n, m.candidateId, m, 1) ==
              n.(role := Follower, currentTerm := m.term, votedFor := Some(m.candidateId), leaderId := None,
                 electionElapsed := 0, electionTimeout := 1,
                 outgoing := n.outgoing + [Envelope(m.candidateId, RequestVoteReply(m.term, n.id, true))])
  {
    hide UpToDate;
  }

  /** The node has nothing to apply. */
  predicate Quiet(n: Node) {
    n.commitIndex == n.lastApplied == n.log.snapshotIndex == 0 && n.committed == [] && n.config == CONFIG
  }

  lemma Sends(n: Node)
    requires Quiet(n)
    ensures TakeReady(n) == (n.(outgoing := []), Ready(n.outgoing, []))
  {
    assert n.committed + [] == [];
  }

  /** A drain that only sends. */
  lemma Mailing(r: Run, t: Cast, w: Who, rules: Rules) returns (s: Run)
    requires Stage(r, rules, t) && Quiet(Of(t, w))
    ensures Stage(s, rules, Put(t, w, Of(t, w).(outgoing := [])))
    ensures forall p :: Sent(r, p) ==> Sent(s, p)
    ensures forall e :: e in Of(t, w).outgoing && !e.message.InstallSnapshot? ==>
              Sent(s, Packet(Name(w), e.to, e.message))
  {
    hide Stage, Sent, TakeReady, Quiet;
    Sends(Of(t, w));
    s := Draining(r, t, w, Of(t, w).(outgoing := []), [], rules);
    assert t.givenA + [] == t.givenA && t.givenB + [] == t.givenB;
  }

  const A1 := Standing(A0, 1, 0, 0)
  const A2 := A1.(outgoing := [])
  const B1 := B0.(currentTerm := 1, votedFor := Some("a"), outgoing := [Envelope("a", RequestVoteReply(1, "b", true))])
  const B2 := B1.(outgoing := [])
  const A3 := Elected(A2, "b")
  const A4 := A3.(outgoing := [])

  lemma Start(rules: Rules) returns (r: Run)
    ensures Stage(r, rules, Cast(A0, B0, C0, [], []))
  {
    var c := Cluster(map["a" := A0, "b" := B0, "c" := C0], {}, map["a" := [], "b" := [], "c" := []]);
    Names();
    assert Membership(c);
    r := Run([c], []);
  }

  lemma FirstVote(rules: Rules) returns (r: Run)
    ensures Stage(r, rules, Cast(A2, B1, C0, [], []))
  {
    hide Stage, Sent, Step, Tick;
    r := Start(rules);
    var request := RequestVote(1, "a", 0, 0);
    Stands(A0);
    r := Ticking(r, Cast(A0, B0, C0, [], []), A, A1, rules);
    r := Mailing(r, Cast(A1, B0, C0, [], []), A, rules);
    assert A1.outgoing[0] == Envelope("b", request);
    VotesFor(B0, request);
    r := Delivering(r, Cast(A2, B0, C0, [], []), "a", B, request, B1, rules);
  }

  lemma FirstElection(rules: Rules) returns (r: Run)
    ensures Stage(r, rules, Cast(A4, B2, C0, [], []))
    ensures Sent(r, Packet("a", "b", AppendEntries(1, "a", 0, 0, [], 0)))
  {
    hide Stage, Sent, Step, AppendFor;
    r := FirstVote(rules);
    var reply := RequestVoteReply(1, "b", true);
    r := Mailing(r, Cast(A2, B1, C0, [], []), B, rules);
    assert B1.outgoing[0] == Envelope("a", reply);
    Wins(A2, "b");
    r := Delivering(r, Cast(A2, B2, C0, [], []), "b", A, reply, A3, rules);
    r := Mailing(r, Cast(A3, B2, C0, [], []), A, rules);
    FreshAppends(A2, "b");
  }

  // ---- "b" forgets its vote and elects "c" in the same term -----------------

  const B3 := B2.(votedFor := None, leaderId := Some("a"),
                  outgoing := [Envelope("a", AppendEntriesReply(1, "b", true, 0, 0))])
  const C1 := Standing(C0, 1, 0, 0)
  const C2 := C1.(outgoing := [])
  const B4 := B3.(votedFor := Some("c"), outgoing := B3.outgoing + [Envelope("c", RequestVoteReply(1, "b", true))])
  const B5 := B4.(outgoing := [])
  const C3 := Elected(C2, "b")

  lemma VoteForgotten()
    ensures Step(B2, "a", AppendEntries(1, "a", 0, 0, [], 0), 1) == B3
    ensures Step(B3, "c", RequestVote(1, "c", 0, 0), 1) == B4
  {
  }

  /** VoteStable is needed: a run with sound acks and no snapshots that elects two leaders in term 1. */
  lemma TwoLeadersInOneTerm() returns (r: Run)
    ensures IsRun(r)
    ensures forall i :: 0 <= i < |r.events| ==> Fair(r.states[i], r.events[i], UNSTABLE_VOTES)
    ensures var c := r.states[|r.events|];
            && "a" in c.nodes && c.nodes["a"].role.Leader? && "c" in c.nodes && c.nodes["c"].role.Leader?
            && c.nodes["a"].currentTerm == c.nodes["c"].currentTerm
  {
    hide Step, Tick, TakeReady, Fair, IsRun, AppendFor;
    r := VoteLost();
    r := VoteRecast(r, A4);
    r := SecondElection(r, A4);
  }

  lemma VoteLost() returns (r: Run)
    ensures Stage(r, UNSTABLE_VOTES, Cast(A4, B3, C0, [], []))
  {
    hide Stage, Sent, Step, AppendFor;
    r := FirstElection(UNSTABLE_VOTES);
    VoteForgotten();
    r := Delivering(r, Cast(A4, B2, C0, [], []), "a", B, AppendEntries(1, "a", 0, 0, [], 0), B3, UNSTABLE_VOTES);
  }

  lemma VoteRecast(r0: Run, a: Node) returns (r: Run)
    requires Stage(r0, UNSTABLE_VOTES, Cast(a, B3, C0, [], []))
    ensures Stage(r, UNSTABLE_VOTES, Cast(a, B4, C2, [], []))
  {
    hide Stage, Sent, Step, Tick, AckIsSound;
    var request := RequestVote(1, "c", 0, 0);
    Stands(C0);
    r := Ticking(r0, Cast(a, B3, C0, [], []), C, C1, UNSTABLE_VOTES);
    r := Mailing(r, Cast(a, B3, C1, [], []), C, UNSTABLE_VOTES);
    assert C1.outgoing[1] == Envelope("b", request);
    VoteForgotten();
    r := Delivering(r, Cast(a, B3, C2, [], []), "c", B, request, B4, UNSTABLE_VOTES);
  }

  lemma SecondElection(r0: Run, a: Node) returns (r: Run)
    requires Stage(r0, UNSTABLE_VOTES, Cast(a, B4, C2, [], []))
    ensures Stage(r, UNSTABLE_VOTES, Cast(a, B5, C3, [], []))
  {
    hide Stage, Sent, Step, AppendFor, AckIsSound;
    Names();
    var reply := RequestVoteReply(1, "b", true);
    r := Mailing(r0, Cast(a, B4, C2, [], []), B, UNSTABLE_VOTES);
    assert B4.outgoing[1] == Envelope("c", reply);
    Wins(C2, "b");
    r := Delivering(r, Cast(a, B5, C2, [], []), "b", C, reply, C3, UNSTABLE_VOTES);
  }
}
