/**
 * AckSound is needed: a run of three nodes, without snapshots and with stable
 * votes, in which two nodes apply different commands at index 1. "a" acknowledges
 * a heartbeat of the next leader with its own uncommitted entry.
 */
module AckWitness {
  import opened Basics
  import opened Messages
  import opened State
  import opened Logs
  import opened Nodes
  import opened Clusters
  import opened Witnesses

  const UNSOUND_ACKS := Rules(true, false, true)

  const X := LogEntry(1, [1])
  const Y := LogEntry(2, [2])
  const Z := LogEntry(3, [3])

  // ---- Term 1: "a" leads and keeps its entry to itself ----------------------

  const A5 := Proposed(A4, [1], 0)

  lemma FirstProposal()
    ensures Propose(A4, [1]).0 == A5 && A5.log == Plain([X])
  {
    hide Propose, AppendFor;
    ProposesFirst(A4, [1]);
    assert [] + [X] == [X];
  }

  // ---- Term 2: "b" leads with the vote of "c" -------------------------------

  const B3 := Standing(B2, 2, 0, 0)
  const B4 := B3.(outgoing := [])
  const C1 := C0.(currentTerm := 2, votedFor := Some("b"), outgoing := [Envelope("b", RequestVoteReply(2, "c", true))])
  const C2 := C1.(outgoing := [])
  const B5 := Elected(B4, "c")
  const B6 := B5.(outgoing := [])

  lemma SecondVote() returns (r: Run)
    ensures Stage(r, UNSOUND_ACKS, Cast(A5, B4, C1, [], []))
  {
    hide Stage, Sent, Step, Tick, Propose, AppendFor;
    r := FirstElection(UNSOUND_ACKS);
    var request := RequestVote(2, "b", 0, 0);
    FirstProposal();
    r := Proposing(r, Cast(A4, B2, C0, [], []), A, [1], A5, UNSOUND_ACKS);
    Stands(B2);
    r := Ticking(r, Cast(A5, B2, C0, [], []), B, B3, UNSOUND_ACKS);
    r := Mailing(r, Cast(A5, B3, C0, [], []), B, UNSOUND_ACKS);
    assert B3.outgoing[1] == Envelope("c", request);
    VotesFor(C0, request);
    r := Delivering(r, Cast(A5, B4, C0, [], []), "b", C, request, C1, UNSOUND_ACKS);
  }

  lemma SecondLeader(r0: Run, a: Node) returns (r: Run)
    requires Stage(r0, UNSOUND_ACKS, Cast(a, B4, C1, [], []))
    ensures Stage(r, UNSOUND_ACKS, Cast(a, B6, C2, [], []))
    ensures Sent(r, Packet("b", "a", AppendEntries(2, "b", 0, 0, [], 0)))
  {
    hide Stage, Sent, Step, AppendFor;
    Names();
    var reply := RequestVoteReply(2, "c", true);
    r := Mailing(r0, Cast(a, B4, C1, [], []), C, UNSOUND_ACKS);
    assert C1.outgoing[0] == Envelope("b", reply);
    Wins(B4, "c");
    r := Delivering(r, Cast(a, B4, C2, [], []), "c", B, reply, B5, UNSOUND_ACKS);
    r := Mailing(r, Cast(a, B5, C2, [], []), B, UNSOUND_ACKS);
    FreshAppends(B4, "c");
  }

  // ---- The unsound ack, and a commit that only "b" holds --------------------

  const A6 := A5.(role := Follower, currentTerm := 2, votedFor := None, leaderId := Some("b"),
                  outgoing := A5.outgoing + [Envelope("b", AppendEntriesReply(2, "a", true, 1, 0))])
  const A7 := Node("a", ["b", "c"], CONFIG, Follower, Some("b"), 2, None, Plain([X]), 0, 0,
                   FreshProgress(["b", "c"], 0), {"a", "b"}, 0, 0, 1, [], [])
  const B7 := B6.(progress := B6.progress.SetMatch("a", 1).SetNext("a", 2))
  const B8 := Proposed(B7, [2], 1)
  const B9 := B8.(outgoing := [], lastApplied := 1)

  lemma UnsoundAck()
    ensures Step(A5, "b", AppendEntries(2, "b", 0, 0, [], 0), 1) == A6
  {
    hide AppendFor;
    FirstProposal();
  }

  lemma AckCredited()
    ensures Step(B6, "a", AppendEntriesReply(2, "a", true, 1, 0), 1) == B7
  {
    hide AppendFor;
  }

  lemma SecondProposal()
    ensures Propose(B7, [2]).0 == B8 && B8.log == Plain([Y])
  {
    hide Propose, AppendFor;
    ProposesFirst(B7, [2]);
    assert [] + [Y] == [Y];
  }

  lemma SecondCommit()
    ensures TakeReady(B8) == (B9, Ready(B8.outgoing, [Committed.Command(1, [2])]))
  {
    hide AppendFor;
    SecondProposal();
    assert CommandsIn(B8.log, 0, 0) == [];
    assert CommandsIn(B8.log, 0, 1) == [Committed.Command(1, [2])];
  }

  lemma AfterAck()
    ensures A6.(outgoing := []) == A7
    ensures A6.outgoing[2] == Envelope("b", AppendEntriesReply(2, "a", true, 1, 0)) && Quiet(A6)
  {
    hide AppendFor;
    FirstProposal();
  }

  lemma AckDelivered() returns (r: Run)
    ensures Stage(r, UNSOUND_ACKS, Cast(A7, B7, C2, [], []))
  {
    hide Stage, Sent, Step, AppendFor, Quiet;
    r := SecondVote();
    r := SecondLeader(r, A5);
    var ack := AppendEntriesReply(2, "a", true, 1, 0);
    UnsoundAck();
    AckCredited();
    AfterAck();
    r := Delivering(r, Cast(A5, B6, C2, [], []), "b", A, AppendEntries(2, "b", 0, 0, [], 0), A6, UNSOUND_ACKS);
    r := Mailing(r, Cast(A6, B6, C2, [], []), A, UNSOUND_ACKS);
    assert A6.outgoing[2] in A6.outgoing;
    r := Delivering(r, Cast(A7, B6, C2, [], []), "a", B, ack, B7, UNSOUND_ACKS);
  }

  /** "b" commits and applies an entry that nobody else holds. */
  lemma SecondTerm(r0: Run, a: Node, c: Node) returns (r: Run)
    requires Stage(r0, UNSOUND_ACKS, Cast(a, B7, c, [], []))
    ensures Stage(r, UNSOUND_ACKS, Cast(a, B9, c, [], [Committed.Command(1, [2])]))
  {
    hide Stage, Sent, Propose, TakeReady, AppendFor;
    SecondProposal();
    r := Proposing(r0, Cast(a, B7, c, [], []), B, [2], B8, UNSOUND_ACKS);
    SecondCommit();
    r := Draining(r, Cast(a, B8, c, [], []), B, B9, [Committed.Command(1, [2])], UNSOUND_ACKS);
    assert [] + [Committed.Command(1, [2])] == [Committed.Command(1, [2])];
  }

  // ---- Term 3: "a" leads again and replicates its old entry -----------------

  const A8 := Standing(A7, 3, 1, 1)
  const A9 := A8.(outgoing := [])
  const C3 := C2.(role := Follower, currentTerm := 3, votedFor := Some("a"), leaderId := None,
                  outgoing := [Envelope("a", RequestVoteReply(3, "c", true))])
  const C4 := C3.(outgoing := [])
  const A10 := Elected(A9, "c")

  lemma ThirdVote(r0: Run, b: Node, given: seq<Committed>) returns (r: Run)
    requires Stage(r0, UNSOUND_ACKS, Cast(A7, b, C2, [], given))
    ensures Stage(r, UNSOUND_ACKS, Cast(A9, b, C3, [], given))
  {
    hide Stage, Sent, Step, Tick, AppendFor;
    var request := RequestVote(3, "a", 1, 1);
    Stands(A7);
    r := Ticking(r0, Cast(A7, b, C2, [], given), A, A8, UNSOUND_ACKS);
    r := Mailing(r, Cast(A8, b, C2, [], given), A, UNSOUND_ACKS);
    assert A8.outgoing[1] == Envelope("c", request);
    VotesFor(C2, request);
    r := Delivering(r, Cast(A9, b, C2, [], given), "a", C, request, C3, UNSOUND_ACKS);
  }

  lemma ThirdLeader(r0: Run, b: Node, given: seq<Committed>) returns (r: Run)
    requires Stage(r0, UNSOUND_ACKS, Cast(A9, b, C3, [], given))
    ensures Stage(r, UNSOUND_ACKS, Cast(A10, b, C4, [], given))
  {
    hide Stage, Sent, Step, AppendFor;
    Names();
    var reply := RequestVoteReply(3, "c", true);
    r := Mailing(r0, Cast(A9, b, C3, [], given), C, UNSOUND_ACKS);
    assert C3.outgoing[0] == Envelope("a", reply);
    Wins(A9, "c");
    r := Delivering(r, Cast(A9, b, C4, [], given), "c", A, reply, A10, UNSOUND_ACKS);
  }

  const A12 := Node("a", ["b", "c"], CONFIG, Leader, Some("a"), 3, Some("a"), Plain([X, Z]), 0, 0,
                    FreshProgress(["b", "c"], 1), {"a", "c"}, 0, 0, 1, [], [])

  lemma ThirdProposal()
    ensures var n := Propose(A10, [3]).0;
            && n.(outgoing := []) == A12 && Quiet(n)
            && Envelope("c", AppendEntries(3, "a", 1, 1, [Z], 0)) in n.outgoing
  {
    hide Propose;
    ProposesFirst(A10, [3]);
    assert [X] + [Z] == [X, Z] && [X, Z][1..] == [Z];
    assert Proposed(A10, [3], 0).outgoing[3] == Envelope("c", AppendEntries(3, "a", 1, 1, [Z], 0));
  }

  const C5 := C4.(leaderId := Some("a"), votedFor := None,
                  outgoing := [Envelope("a", AppendEntriesReply(3, "c", false, 0, 1))])
  const C6 := C5.(outgoing := [])

  lemma ThirdRejected()
    ensures Step(C4, "a", AppendEntries(3, "a", 1, 1, [Z], 0), 1) == C5
  {
  }

  lemma ThirdProbe(r0: Run, b: Node, given: seq<Committed>) returns (r: Run)
    requires Stage(r0, UNSOUND_ACKS, Cast(A10, b, C4, [], given))
    ensures Stage(r, UNSOUND_ACKS, Cast(A12, b, C6, [], given))
    ensures Sent(r, Packet("c", "a", AppendEntriesReply(3, "c", false, 0, 1)))
  {
    hide Stage, Sent, Propose, Step, Quiet;
    ThirdProposal();
    var n := Propose(A10, [3]).0;
    r := Proposing(r0, Cast(A10, b, C4, [], given), A, [3], n, UNSOUND_ACKS);
    r := Mailing(r, Cast(n, b, C4, [], given), A, UNSOUND_ACKS);
    ThirdRejected();
    r := Delivering(r, Cast(A12, b, C4, [], given), "a", C, AppendEntries(3, "a", 1, 1, [Z], 0), C5, UNSOUND_ACKS);
    assert Quiet(C5) by {
      QuietC();
    }
    r := Mailing(r, Cast(A12, b, C5, [], given), C, UNSOUND_ACKS);
    assert C5.outgoing[0] in C5.outgoing;
  }

  lemma QuietC()
    ensures Quiet(C5)
  {
  }

  // ---- "c" takes both entries, and "a" applies its own first one -------------

  const RETRY := AppendEntries(3, "a", 0, 0, [X, Z], 0)
  const A13 := A12.(progress := A12.progress.SetNext("c", 1), outgoing := [Envelope("c", RETRY)])
  const A14 := A13.(outgoing := [])
  const C7 := C6.(log := Plain([X, Z]), outgoing := [Envelope("a", AppendEntriesReply(3, "c", true, 2, 0))])
  const C8 := C7.(outgoing := [])
  const A15 := A14.(progress := A14.progress.SetMatch("c", 2).SetNext("c", 3), commitIndex := 2)
  const A16 := A15.(lastApplied := 2, log := Log([], 2, 3))
  const GIVEN_A := [Committed.Command(1, [1]), Committed.Command(2, [3])]

  lemma Retried()
    ensures Step(A12, "c", AppendEntriesReply(3, "c", false, 0, 1), 1) == A13
  {
    assert [X, Z][0..] == [X, Z];
  }

  lemma RetryAccepted()
    ensures Step(C6, "a", RETRY, 1) == C7
  {
    assert [] + [X, Z] == [X, Z];
  }

  lemma ThirdCommitted()
    ensures Step(A14, "c", AppendEntriesReply(3, "c", true, 2, 0), 1) == A15
  {
    hide Holders;
    var m := A14.(progress := A14.progress.SetMatch("c", 2).SetNext("c", 3));
    TwoPeers(m.progress, m.peers, 2);
    assert Committable(m, 2);
  }

  lemma ThirdApplied()
    ensures TakeReady(A15) == (A16, Ready([], GIVEN_A))
  {
    assert CommandsIn(A15.log, 0, 0) == [];
    assert CommandsIn(A15.log, 0, 1) == [Committed.Command(1, [1])];
    assert CommandsIn(A15.log, 0, 2) == GIVEN_A;
    assert A15.log.entries[2..] == [];
    assert [] + GIVEN_A == GIVEN_A;
  }

  lemma ThirdRepaired(r0: Run, b: Node, given: seq<Committed>) returns (r: Run)
    requires Stage(r0, UNSOUND_ACKS, Cast(A12, b, C6, [], given))
    requires Sent(r0, Packet("c", "a", AppendEntriesReply(3, "c", false, 0, 1)))
    ensures Stage(r, UNSOUND_ACKS, Cast(A14, b, C8, [], given))
    ensures Sent(r, Packet("c", "a", AppendEntriesReply(3, "c", true, 2, 0)))
  {
    hide Stage, Sent, Step;
    Retried();
    var rejection := AppendEntriesReply(3, "c", false, 0, 1);
    r := Delivering(r0, Cast(A12, b, C6, [], given), "c", A, rejection, A13, UNSOUND_ACKS);
    r := Mailing(r, Cast(A13, b, C6, [], given), A, UNSOUND_ACKS);
    assert A13.outgoing[0] in A13.outgoing;
    RetryAccepted();
    r := Delivering(r, Cast(A14, b, C6, [], given), "a", C, RETRY, C7, UNSOUND_ACKS);
    r := Mailing(r, Cast(A14, b, C7, [], given), C, UNSOUND_ACKS);
    assert C7.outgoing[0] in C7.outgoing;
  }

  lemma ThirdTerm(r0: Run, b: Node, given: seq<Committed>) returns (r: Run)
    requires Stage(r0, UNSOUND_ACKS, Cast(A7, b, C2, [], given))
    ensures Stage(r, UNSOUND_ACKS, Cast(A16, b, C8, GIVEN_A, given))
  {
    hide Stage, Sent, Step, TakeReady;
    r := ThirdVote(r0, b, given);
    r := ThirdLeader(r, b, given);
    r := ThirdProbe(r, b, given);
    r := ThirdRepaired(r, b, given);
    ThirdCommitted();
    r := Delivering(r, Cast(A14, b, C8, [], given), "c", A, AppendEntriesReply(3, "c", true, 2, 0), A15, UNSOUND_ACKS);
    ThirdApplied();
    r := Draining(r, Cast(A15, b, C8, [], given), A, A16, GIVEN_A, UNSOUND_ACKS);
    assert [] + GIVEN_A == GIVEN_A;
  }

  /** AckSound is needed: with stable votes and no snapshots, "a" and "b" apply different commands at
      index 1. */
  lemma DifferentCommandsApplied() returns (r: Run)
    ensures IsRun(r)
    ensures forall i :: 0 <= i < |r.events| ==> Fair(r.states[i], r.events[i], UNSOUND_ACKS)
    ensures var c := r.states[|r.events|];
            && "a" in c.delivered && Committed.Command(1, [1]) in c.delivered["a"]
            && "b" in c.delivered && Committed.Command(1, [2]) in c.delivered["b"]
  {
    hide Step, TakeReady, Fair, IsRun;
    r := AckDelivered();
    r := SecondTerm(r, A7, C2);
    r := ThirdTerm(r, B9, [Committed.Command(1, [2])]);
    assert GIVEN_A[0] in GIVEN_A;
  }
}
