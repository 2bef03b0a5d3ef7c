/**
 * A follower that can never catch up: a run of three nodes in which the log of a
 * newly elected leader is compacted, a peer needs what it has compacted away, and
 * the leader already holds an entry of its own term.
 */
module StuckWitness {
  import opened Basics
  import opened Messages
  import opened State
  import opened Logs
  import opened Nodes
  import opened Clusters
  import opened Witnesses
  import opened MisplacedWitness
  import opened Repair
  import opened CatchUp

  // ---- "b", compacted at 2, is elected in term 2 with the vote of "c" --------

  const D1 := Standing(B6, 2, 2, 1)
  const D2 := D1.(outgoing := [])
  const T1 := C0.(currentTerm := 2, votedFor := Some("b"), outgoing := [Envelope("b", RequestVoteReply(2, "c", true))])
  const T2 := T1.(outgoing := [])
  const D3 := Elected(D2, "c")
  const D4 := D3.(outgoing := [])
  const PROBE := AppendEntries(2, "b", 2, 1, [], 2)

  /** The second of three votes elects a node that has applied its whole log. */
  lemma WinsApplied(n: Node, voter: NodeId)
    requires |n.peers| == 2 && n.role.Candidate? && n.votes == {n.id} && voter != n.id
    requires n.commitIndex == n.log.LastIndex()
    ensures Step(n, voter, RequestVoteReply(n.currentTerm, voter, true), 1) == Elected(n, voter)
  {
    hide AppendFor;
    var c := n.(votes := {n.id, voter});
    assert |c.votes| == 2 && MajoritySize(c) == 2;
    var o := TakeOffice(c);
    assert Appends(o) ==
           [Envelope(n.peers[0], AppendFor(o, n.peers[0])), Envelope(n.peers[1], AppendFor(o, n.peers[1]))];
    assert o == n.(role := Leader, leaderId := Some(n.id), votes := {n.id, voter}, heartbeatElapsed := 0,
                   progress := FreshProgress(n.peers, n.log.LastIndex()));
    assert n.votes + {voter} == {n.id, voter};
  }

  lemma Voting(r0: Run, a: Node) returns (r: Run)
    requires Stage(r0, COMPACTED, Cast(a, B6, C0, GIVEN, GIVEN))
    ensures Stage(r, COMPACTED, Cast(a, D2, T1, GIVEN, GIVEN))
  {
    hide Stage, Sent, Step, Tick, TakeReady;
    var request := RequestVote(2, "b", 2, 1);
    Stands(B6);
    r := Ticking(r0, Cast(a, B6, C0, GIVEN, GIVEN), B, D1, COMPACTED);
    SendsOnly(D1);
    r := Draining(r, Cast(a, D1, C0, GIVEN, GIVEN), B, D2, [], COMPACTED);
    assert GIVEN + [] == GIVEN && D1.outgoing[1] == Envelope("c", request);
    VotesFor(C0, request);
    r := Delivering(r, Cast(a, D2, C0, GIVEN, GIVEN), "b", C, request, T1, COMPACTED);
  }

  lemma ProbeQueued()
    ensures D3.outgoing == [Envelope("a", PROBE), Envelope("c", PROBE)]
  {
    Names();
    assert D3.log.EntriesFrom(3) == [];
  }

  lemma Winning(r0: Run, a: Node) returns (r: Run)
    requires Stage(r0, COMPACTED, Cast(a, D2, T1, GIVEN, GIVEN))
    ensures Stage(r, COMPACTED, Cast(a, D4, T2, GIVEN, GIVEN)) && Sent(r, Packet("b", "c", PROBE))
  {
    hide Stage, Sent, Step, TakeReady, AppendFor;
    Names();
    var reply := RequestVoteReply(2, "c", true);
    r := Mailing(r0, Cast(a, D2, T1, GIVEN, GIVEN), C, COMPACTED);
    assert T1.outgoing[0] == Envelope("b", reply);
    WinsApplied(D2, "c");
    r := Delivering(r, Cast(a, D2, T2, GIVEN, GIVEN), "c", B, reply, D3, COMPACTED);
    SendsOnly(D3);
    r := Draining(r, Cast(a, D3, T2, GIVEN, GIVEN), B, D4, [], COMPACTED);
    ProbeQueued();
    assert GIVEN + [] == GIVEN && D3.outgoing[1] in D3.outgoing;
  }

  // ---- "c" has nothing, and "b" gets an entry of term 2 ----------------------

  const NO := AppendEntriesReply(2, "c", false, 0, 1)
  const T3 := T2.(votedFor := None, leaderId := Some("b"), outgoing := [Envelope("b", NO)])
  const T4 := T3.(outgoing := [])
  const D5 := D4.(progress := D4.progress.SetNext("c", 1),
                  outgoing := [Envelope("c", InstallSnapshot(2, "b", 2, 1, []))])

  lemma ProbeMissed()
    ensures Step(T2, "b", PROBE, 1) == T3 && DeliveryOk(T2, PROBE, COMPACTED) && T2.config == CONFIG
  {
    hide Step, DeliveryOk;
    RejectsBeyond(T2);
  }

  lemma RejectsBeyond(n: Node)
    requires n.role.Follower? && n.currentTerm == 2 && n.id == "c" && n.log == EMPTY_LOG && n.outgoing == []
    ensures Step(n, "b", PROBE, 1) ==
              n.(votedFor := None, leaderId := Some("b"), electionElapsed := 0, electionTimeout := 1,
                 outgoing := [Envelope("b", NO)])
    ensures DeliveryOk(n, PROBE, COMPACTED)
  {
  }

  lemma NeedsSnapshot()
    ensures Step(D4, "c", NO, 1) == D5 && DeliveryOk(D4, NO, COMPACTED) && D4.config == CONFIG
  {
    hide Step, DeliveryOk, AppendFor;
    AsksFromTheStart(D4);
  }

  lemma AsksFromTheStart(n: Node)
    requires n.role.Leader? && n.currentTerm == 2 && n.id == "b" && n.log == Log([], 2, 1) && n.outgoing == []
    ensures Step(n, "c", NO, 1) ==
              n.(progress := n.progress.SetNext("c", 1),
                 outgoing := [Envelope("c", InstallSnapshot(2, "b", 2, 1, []))])
    ensures DeliveryOk(n, NO, COMPACTED)
  {
  }

  lemma Rejecting(r0: Run, a: Node) returns (r: Run)
    requires Stage(r0, COMPACTED, Cast(a, D4, T2, GIVEN, GIVEN)) && Sent(r0, Packet("b", "c", PROBE))
    ensures Stage(r, COMPACTED, Cast(a, D4, T4, GIVEN, GIVEN)) && Sent(r, Packet("c", "b", NO))
  {
    hide Stage, Sent, Step, DeliveryOk;
    ProbeMissed();
    r := Delivering(r0, Cast(a, D4, T2, GIVEN, GIVEN), "b", C, PROBE, T3, COMPACTED);
    r := Mailing(r, Cast(a, D4, T3, GIVEN, GIVEN), C, COMPACTED);
    assert T3.outgoing[0] in T3.outgoing;
  }

  lemma Yielding(r0: Run, a: Node) returns (r: Run)
    requires Stage(r0, COMPACTED, Cast(a, D4, T4, GIVEN, GIVEN)) && Sent(r0, Packet("c", "b", NO))
    ensures Stage(r, COMPACTED, Cast(a, D5, T4, GIVEN, GIVEN))
  {
    hide Stage, Sent, Step, DeliveryOk;
    NeedsSnapshot();
    r := Delivering(r0, Cast(a, D4, T4, GIVEN, GIVEN), "c", B, NO, D5, COMPACTED);
  }

  /** The leader's proposal finds no majority and stays uncommitted. */
  lemma NewEntry()
    ensures var n := Propose(D5, [9]).0;
            && n.log == Log([LogEntry(2, [9])], 2, 1) && n.role.Leader? && n.currentTerm == 2 && n.id == "b"
            && n.progress == D5.progress
  {
    hide Holders, AppendFor;
    var m := D5.(log := D5.log.Append([LogEntry(2, [9])]));
    assert [] + [LogEntry(2, [9])] == [LogEntry(2, [9])];
  }

  lemma Arriving() returns (r: Run)
    ensures Stage(r, COMPACTED, Cast(A10, D5, T4, GIVEN, GIVEN))
  {
    hide *;
    r := Committing();
    r := Compacting(r, A10);
    r := Voting(r, A10);
    r := Winning(r, A10);
    r := Rejecting(r, A10);
    r := Yielding(r, A10);
  }

  /** A reachable state from which one follower never catches up: no number of rounds, whatever timeouts
      are drawn and whatever data is shipped, brings it a single entry. */
  lemma StuckForGood() returns (r: Run)
    ensures IsRun(r) && forall i :: 0 <= i < |r.events| ==> Fair(r.states[i], r.events[i], COMPACTED)
    ensures var c := r.states[|r.events|];
            && "b" in c.nodes && "c" in c.nodes
            && var p := Pair(c.nodes["b"], c.nodes["c"]);
               && Behind(p) && p.leader.log.entries != []
               && forall turns :: turns != [] ==> TalkAll(p, turns).follower.log.entries == []
  {
    hide Step, TakeReady, Fair, IsRun, AppendFor, Propose, TalkAll;
    r := Arriving();
    var n := Propose(D5, [9]).0;
    r := Proposing(r, Cast(A10, D5, T4, GIVEN, GIVEN), B, [9], n, COMPACTED);
    NewEntry();
    var p := Pair(n, T4);
    forall turns | turns != [] ensures TalkAll(p, turns).follower.log.entries == [] {
      NeverCatchesUp(p, turns);
    }
  }
}
