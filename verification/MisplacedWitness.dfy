/**
 * SnapshotFree is needed: a run of three nodes within one term, with stable votes
 * and sound acks and without any installed snapshot, in which two nodes apply
 * different commands at index 3. "b" has compacted its log when an old append
 * from index 0 arrives, and puts the entry behind its snapshot point.
 */
module MisplacedWitness {
  import opened Basics
  import opened Messages
  import opened State
  import opened Logs
  import opened Nodes
  import opened Clusters
  import opened Witnesses

  const COMPACTED := Rules(true, true, false)

  const X := LogEntry(1, [1])
  const Y := LogEntry(1, [2])
  const Z := LogEntry(1, [3])

  const OLD := AppendEntries(1, "a", 0, 0, [X], 0)
  const BOTH := AppendEntries(1, "a", 0, 0, [X, Y], 0)

  // ---- "a" replicates two entries to "b" ------------------------------------

  lemma {:induction false} NobodyHolds(n: Node, index: nat)
    requires |n.peers| == 2 && n.commitIndex == 0
    requires n.progress.Matched(n.peers[0]) == n.progress.Matched(n.peers[1]) == 0
    ensures CommitPoint(n, index) == 0
  {
    hide Holders;
    if index > 0 {
      TwoPeers(n.progress, n.peers, index);
      NobodyHolds(n, index - 1);
    }
  }

  lemma ProposesUnheld(n: Node, command: Command)
    requires |n.peers| == 2 && n.role.Leader? && n.commitIndex == 0
    requires n.progress.Matched(n.peers[0]) == n.progress.Matched(n.peers[1]) == 0
    ensures Propose(n, command).0 == Proposed(n, command, 0)
  {
    hide AppendFor, CommitPoint;
    var m := n.(log := n.log.Append([LogEntry(n.currentTerm, command)]));
    assert Appends(m) ==
           [Envelope(n.peers[0], AppendFor(m, n.peers[0])), Envelope(n.peers[1], AppendFor(m, n.peers[1]))];
    NobodyHolds(BroadcastAppend(m), m.log.LastIndex());
  }

  const A5 := Proposed(A4, [1], 0)
  const A6 := Proposed(A5, [2], 0)
  const A7 := Node("a", ["b", "c"], CONFIG, Leader, Some("a"), 1, Some("a"), Plain([X, Y]), 0, 0,
                   FreshProgress(["b", "c"], 0), {"a", "b"}, 0, 0, 1, [], [])

  /** To a peer that holds nothing the leader sends its whole uncompacted log. */
  lemma SendsAll(n: Node, command: Command)
    requires |n.peers| == 2 && n.log == Plain(n.log.entries) && n.progress.Next(n.peers[0]) == 1
    ensures var all := n.log.entries + [LogEntry(n.currentTerm, command)];
            && Proposed(n, command, 0).log == Plain(all)
            && |Proposed(n, command, 0).outgoing| == |n.outgoing| + 2
            && Proposed(n, command, 0).outgoing[..|n.outgoing|] == n.outgoing
            && Proposed(n, command, 0).outgoing[|n.outgoing|] ==
                 Envelope(n.peers[0], AppendEntries(n.currentTerm, n.id, 0, 0, all, n.commitIndex))
  {
    var all := n.log.entries + [LogEntry(n.currentTerm, command)];
    assert all[0..] == all;
  }

  lemma FirstProposed()
    ensures Propose(A4, [1]).0 == A5 && A5.log == Plain([X])
    ensures |A5.outgoing| == 2 && A5.outgoing[0] == Envelope("b", OLD)
  {
    hide Propose, AppendFor;
    ProposesUnheld(A4, [1]);
    SendsAll(A4, [1]);
    assert [] + [X] == [X];
  }

  lemma SecondProposed()
    ensures Propose(A5, [2]).0 == A6 && A6.log == Plain([X, Y]) && |A6.outgoing| == 4
    ensures A6.outgoing[0] == Envelope("b", OLD) && A6.outgoing[2] == Envelope("b", BOTH)
  {
    hide Propose, AppendFor;
    FirstProposed();
    ProposesUnheld(A5, [2]);
    SendsAll(A5, [2]);
    assert [X] + [Y] == [X, Y];
    assert A6.outgoing[0] == A6.outgoing[..2][0];
  }

  lemma BothQueued()
    ensures A6.(outgoing := []) == A7 && Quiet(A6)
    ensures Envelope("b", OLD) in A6.outgoing && Envelope("b", BOTH) in A6.outgoing
  {
    hide AppendFor, Proposed;
    SecondProposed();
    assert A6.outgoing[0] in A6.outgoing && A6.outgoing[2] in A6.outgoing;
    RestOfA6();
  }

  lemma RestOfA6()
    ensures A6 == A7.(log := A6.log, outgoing := A6.outgoing)
  {
    hide AppendFor;
  }

  const B3 := B2.(votedFor := None, leaderId := Some("a"), log := Plain([X, Y]),
                  outgoing := [Envelope("a", AppendEntriesReply(1, "b", true, 2, 0))])
  const B4 := B3.(outgoing := [])

  lemma BothAccepted()
    ensures Step(B2, "a", BOTH, 1) == B3 && AckIsSound(B2.log, BOTH)
  {
    assert [] + [X, Y] == [X, Y];
  }

  lemma BothSent() returns (r: Run)
    ensures Stage(r, COMPACTED, Cast(A7, B2, C0, [], []))
    ensures Sent(r, Packet("a", "b", OLD)) && Sent(r, Packet("a", "b", BOTH))
  {
    hide Stage, Sent, Propose, AppendFor, Quiet, Proposed;
    r := FirstElection(COMPACTED);
    FirstProposed();
    r := Proposing(r, Cast(A4, B2, C0, [], []), A, [1], A5, COMPACTED);
    SecondProposed();
    r := Proposing(r, Cast(A5, B2, C0, [], []), A, [2], A6, COMPACTED);
    BothQueued();
    r := Mailing(r, Cast(A6, B2, C0, [], []), A, COMPACTED);
  }

  lemma Replicated() returns (r: Run)
    ensures Stage(r, COMPACTED, Cast(A7, B4, C0, [], []))
    ensures Sent(r, Packet("a", "b", OLD)) && Sent(r, Packet("b", "a", AppendEntriesReply(1, "b", true, 2, 0)))
  {
    hide Stage, Sent, Step, AckIsSound;
    r := BothSent();
    BothAccepted();
    r := Delivering(r, Cast(A7, B2, C0, [], []), "a", B, BOTH, B3, COMPACTED);
    r := Mailing(r, Cast(A7, B3, C0, [], []), B, COMPACTED);
    assert B3.outgoing[0] in B3.outgoing;
  }

  // ---- Both apply and compact ------------------------------------------------

  const GIVEN := [Committed.Command(1, [1]), Committed.Command(2, [2])]
  const A8 := A7.(progress := A7.progress.SetMatch("b", 2).SetNext("b", 3), commitIndex := 2)
  const COMMIT := AppendEntries(1, "a", 2, 1, [], 2)
  const A9 := A8.(outgoing := [Envelope("b", COMMIT), Envelope("c", AppendEntries(1, "a", 0, 0, [X, Y], 2))])
  const A10 := A8.(lastApplied := 2, log := Log([], 2, 1))
  const B5 := B4.(commitIndex := 2, outgoing := [Envelope("a", AppendEntriesReply(1, "b", true, 2, 0))])
  const B6 := B5.(lastApplied := 2, log := Log([], 2, 1), outgoing := [])

  lemma LeaderCommits()
    ensures Step(A7, "b", AppendEntriesReply(1, "b", true, 2, 0), 1) == A8
  {
    hide Holders;
    var m := A7.(progress := A7.progress.SetMatch("b", 2).SetNext("b", 3));
    TwoPeers(m.progress, m.peers, 2);
    assert Committable(m, 2);
  }

  /** A heartbeat. */
  lemma Beats(n: Node)
    requires |n.peers| == 2 && n.role.Leader? && n.config == CONFIG && n.heartbeatElapsed == 0
    ensures Tick(n, 1) == n.(outgoing := n.outgoing + [Envelope(n.peers[0], AppendFor(n, n.peers[0])),
                                                        Envelope(n.peers[1], AppendFor(n, n.peers[1]))])
  {
    hide AppendFor;
    assert Appends(n) ==
           [Envelope(n.peers[0], AppendFor(n, n.peers[0])), Envelope(n.peers[1], AppendFor(n, n.peers[1]))];
  }

  lemma CommitAnnounced()
    ensures Tick(A8, 1) == A9
  {
    hide Tick;
    Names();
    Beats(A8);
    assert [X, Y][2..] == [] && [X, Y][0..] == [X, Y];
  }

  /** Applying both entries reaches the threshold. */
  lemma AppliesBoth(n: Node)
    requires n.log == Plain([X, Y]) && n.commitIndex == 2
    requires n.lastApplied == 0 && n.committed == [] && n.config == CONFIG
    ensures TakeReady(n) == (n.(lastApplied := 2, log := Log([], 2, 1), outgoing := []), Ready(n.outgoing, GIVEN))
  {
    assert CommandsIn(n.log, 0, 0) == [];
    assert CommandsIn(n.log, 0, 1) == [Committed.Command(1, [1])];
    assert CommandsIn(n.log, 0, 2) == GIVEN;
    assert [] + GIVEN == GIVEN && n.log.entries[2..] == [];
  }

  lemma CommitLearned()
    ensures Step(B4, "a", COMMIT, 1) == B5 && AckIsSound(B4.log, COMMIT)
  {
  }

  lemma Committing() returns (r: Run)
    ensures Stage(r, COMPACTED, Cast(A10, B4, C0, GIVEN, []))
    ensures Sent(r, Packet("a", "b", OLD)) && Sent(r, Packet("a", "b", COMMIT))
  {
    hide Stage, Sent, Step, Tick, TakeReady, AppendFor;
    r := Replicated();
    LeaderCommits();
    r := Delivering(r, Cast(A7, B4, C0, [], []), "b", A, AppendEntriesReply(1, "b", true, 2, 0), A8, COMPACTED);
    CommitAnnounced();
    r := Ticking(r, Cast(A8, B4, C0, [], []), A, A9, COMPACTED);
    AppliesBoth(A9);
    r := Draining(r, Cast(A9, B4, C0, [], []), A, A10, GIVEN, COMPACTED);
    assert [] + GIVEN == GIVEN && A9.outgoing[0] in A9.outgoing;
  }

  lemma Compacting(r0: Run, a: Node) returns (r: Run)
    requires Stage(r0, COMPACTED, Cast(a, B4, C0, GIVEN, [])) && Sent(r0, Packet("a", "b", COMMIT))
    ensures Stage(r, COMPACTED, Cast(a, B6, C0, GIVEN, GIVEN))
    ensures forall p :: Sent(r0, p) ==> Sent(r, p)
  {
    hide Stage, Sent, Step, TakeReady, AckIsSound;
    CommitLearned();
    r := Delivering(r0, Cast(a, B4, C0, GIVEN, []), "a", B, COMMIT, B5, COMPACTED);
    AppliesBoth(B5);
    r := Draining(r, Cast(a, B5, C0, GIVEN, []), B, B6, GIVEN, COMPACTED);
    assert [] + GIVEN == GIVEN;
  }

  // ---- The old append arrives ------------------------------------------------

  const ACK := AppendEntriesReply(1, "b", true, 3, 0)
  const B7 := B6.(log := Log([X], 2, 1), outgoing := [Envelope("a", ACK)])
  const B8 := B7.(outgoing := [])
  const A11 := A10.(progress := A10.progress.SetMatch("b", 3).SetNext("b", 4))

  lemma OldMisplaced()
    ensures Step(B6, "a", OLD, 1) == B7 && AckIsSound(B6.log, OLD)
  {
    assert [] + [X] == [X];
  }

  /** Draining a node that has applied everything. */
  lemma SendsOnly(n: Node)
    requires n.commitIndex == n.lastApplied == n.log.snapshotIndex && n.committed == [] && n.config == CONFIG
    ensures TakeReady(n) == (n.(outgoing := []), Ready(n.outgoing, []))
  {
    assert n.committed + [] == [];
  }

  lemma AckBelieved()
    ensures Step(A10, "b", ACK, 1) == A11
  {
  }

  lemma Misplacing(r0: Run) returns (r: Run)
    requires Stage(r0, COMPACTED, Cast(A10, B6, C0, GIVEN, GIVEN)) && Sent(r0, Packet("a", "b", OLD))
    ensures Stage(r, COMPACTED, Cast(A11, B8, C0, GIVEN, GIVEN))
  {
    hide Stage, Sent, Step, TakeReady, AckIsSound;
    OldMisplaced();
    r := Delivering(r0, Cast(A10, B6, C0, GIVEN, GIVEN), "a", B, OLD, B7, COMPACTED);
    SendsOnly(B7);
    r := Draining(r, Cast(A10, B7, C0, GIVEN, GIVEN), B, B8, [], COMPACTED);
    assert GIVEN + [] == GIVEN && B7.outgoing[0] in B7.outgoing;
    AckBelieved();
    r := Delivering(r, Cast(A10, B8, C0, GIVEN, GIVEN), "b", A, ACK, A11, COMPACTED);
  }

  // ---- Index 3 is committed, and holds different commands ---------------------

  const FINAL := AppendEntries(1, "a", 3, 1, [], 3)
  const A12 := Proposed(A11, [3], 3)
  const A13 := A12.(lastApplied := 3, outgoing := [])
  const B9 := B8.(commitIndex := 3, outgoing := [Envelope("a", ACK)])
  const B10 := B9.(lastApplied := 3, outgoing := [])

  lemma ThirdProposed()
    ensures Propose(A11, [3]).0 == A12 && A12.log == Log([Z], 2, 1)
  {
    hide Holders, AppendFor;
    Names();
    var m := A11.(log := Log([Z], 2, 1));
    assert [] + [Z] == [Z];
    assert Appends(m) == [Envelope("b", AppendFor(m, "b")), Envelope("c", AppendFor(m, "c"))];
    TwoPeers(m.progress, m.peers, 3);
    assert Committable(BroadcastAppend(m), 3);
  }

  lemma ThirdAnnounced()
    ensures Tick(A12, 1) == A12.(outgoing := Tick(A12, 1).outgoing) && Envelope("b", FINAL) in Tick(A12, 1).outgoing
  {
    hide Tick, Proposed, AppendFor;
    ThirdProposed();
    RestOfA12();
    Beats(A12);
    FinalAppend(A12);
    var out := Tick(A12, 1).outgoing;
    assert out[|out| - 2] == Envelope("b", FINAL);
  }

  lemma RestOfA12()
    ensures A12 == A11.(log := A12.log, commitIndex := 3, outgoing := A12.outgoing)
  {
    hide AppendFor;
  }

  lemma FinalAppend(n: Node)
    requires n.log == Log([Z], 2, 1) && n.progress.Next("b") == 4
    requires n.currentTerm == 1 && n.id == "a" && n.commitIndex == 3
    ensures AppendFor(n, "b") == FINAL
  {
  }

  /** Applying the entry at index 3 of a log compacted at 2. */
  lemma AppliesThird(n: Node, e: LogEntry)
    requires n.log == Log([e], 2, 1) && n.commitIndex == 3 && n.lastApplied == 2 && n.committed == []
    requires n.config == CONFIG && e.command != []
    ensures TakeReady(n) ==
              (n.(lastApplied := 3, outgoing := []), Ready(n.outgoing, [Committed.Command(3, e.command)]))
  {
    assert CommandsIn(n.log, 2, 2) == [];
    assert CommandsIn(n.log, 2, 3) == [Committed.Command(3, e.command)];
    assert [] + [Committed.Command(3, e.command)] == [Committed.Command(3, e.command)];
  }

  lemma FinalLearned()
    ensures Step(B8, "a", FINAL, 1) == B9 && AckIsSound(B8.log, FINAL)
  {
  }

  lemma LeaderApplies(r0: Run, b: Node) returns (r: Run)
    requires Stage(r0, COMPACTED, Cast(A11, b, C0, GIVEN, GIVEN))
    ensures Stage(r, COMPACTED, Cast(A13, b, C0, GIVEN + [Committed.Command(3, [3])], GIVEN))
    ensures Sent(r, Packet("a", "b", FINAL))
  {
    hide Stage, Sent, Propose, Tick, TakeReady, Proposed, AppendFor;
    ThirdProposed();
    RestOfA12();
    r := Proposing(r0, Cast(A11, b, C0, GIVEN, GIVEN), A, [3], A12, COMPACTED);
    ThirdAnnounced();
    var n := Tick(A12, 1);
    r := Ticking(r, Cast(A12, b, C0, GIVEN, GIVEN), A, n, COMPACTED);
    AppliesThird(n, Z);
    assert n.(lastApplied := 3, outgoing := []) == A13;
    r := Draining(r, Cast(n, b, C0, GIVEN, GIVEN), A, A13, [Committed.Command(3, [3])], COMPACTED);
  }

  lemma FollowerApplies(r0: Run, a: Node, given: seq<Committed>) returns (r: Run)
    requires Stage(r0, COMPACTED, Cast(a, B8, C0, given, GIVEN)) && Sent(r0, Packet("a", "b", FINAL))
    ensures Stage(r, COMPACTED, Cast(a, B10, C0, given, GIVEN + [Committed.Command(3, [1])]))
  {
    hide Stage, Sent, Step, TakeReady, AckIsSound;
    FinalLearned();
    r := Delivering(r0, Cast(a, B8, C0, given, GIVEN), "a", B, FINAL, B9, COMPACTED);
    AppliesThird(B9, X);
    r := Draining(r, Cast(a, B9, C0, given, GIVEN), B, B10, [Committed.Command(3, [1])], COMPACTED);
  }

  /** SnapshotFree is needed: with stable votes, sound acks and no installed snapshot, "a" and "b" apply
      different commands at index 3. */
  lemma MisplacedEntryApplied() returns (r: Run)
    ensures IsRun(r)
    ensures forall i :: 0 <= i < |r.events| ==> Fair(r.states[i], r.events[i], COMPACTED)
    ensures var c := r.states[|r.events|];
            && "a" in c.delivered && Committed.Command(3, [3]) in c.delivered["a"]
            && "b" in c.delivered && Committed.Command(3, [1]) in c.delivered["b"]
  {
    hide Step, TakeReady, Fair, IsRun, Proposed;
    r := Committing();
    r := Compacting(r, A10);
    r := Misplacing(r);
    r := LeaderApplies(r, B8);
    r := FollowerApplies(r, A13, GIVEN + [Committed.Command(3, [3])]);
    assert (GIVEN + [Committed.Command(3, [3])])[2] == Committed.Command(3, [3]);
    assert (GIVEN + [Committed.Command(3, [1])])[2] == Committed.Command(3, [1]);
  }
}
