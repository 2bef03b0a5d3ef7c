/**
 * Exactly when the literal node departs from the Raft paper: which replies claim
 * too much, and which messages make a node forget its vote.
 */
module Exactness {
  import opened Basics
  import opened Messages
  import opened Logs
  import opened Nodes
  import opened Splicing

  /** The leader's log may have grown since the append was sent, by entries of its own term. */
  predicate GrewInTerm(leader: FullLog, length: nat, term: nat) {
    forall i :: length <= i < |leader| ==> leader[i].term == term
  }

  /** Entries of the leader's term come from the leader. */
  predicate FromLeader(l: FullLog, leader: FullLog, term: nat) {
    forall i :: 0 <= i < |l| && l[i].term == term ==> i < |leader| && leader[i].term == term
  }

  lemma LastTermOf(l: FullLog, prev: nat, entries: seq<LogEntry>)
    ensures var s := Spliced(l, prev, entries);
            && Plain(l).Splice(prev, entries).LastIndex() == |s|
            && Plain(l).Splice(prev, entries).LastTerm() == if s == [] then 0 else s[|s| - 1].term
  {
    SpliceAtAgrees(Plain(l), l, prev + 1, entries);
  }

  /** A successful reply reports the whole length of the follower's log. The leader really shares all of
      that exactly when the append's entries end the log or its last entry is of the leader's term. */
  lemma AckTruthfulExactly(l: FullLog, leader: FullLog, m: Message)
    requires m.AppendEntries? && m.term > 0 && Matching(l, leader) && Agree(l, leader, m.prevLogIndex)
    requires SegmentOf(leader, m.prevLogIndex, m.entries)
    requires GrewInTerm(leader, m.prevLogIndex + |m.entries|, m.term) && FromLeader(l, leader, m.term)
    ensures var s := Spliced(l, m.prevLogIndex, m.entries);
            AckIsSound(Plain(l), m) <==> Agree(s, leader, |s|)
  {
    hide Spliced, Log.Splice;
    var end := m.prevLogIndex + |m.entries|;
    var s := Spliced(l, m.prevLogIndex, m.entries);
    SpliceOutcome(l, leader, m.prevLogIndex, m.entries);
    LastTermOf(l, m.prevLogIndex, m.entries);
    if |s| != end {
      assert s == l && |l| > end;
      var last := |l| - 1;
      if l[last].term == m.term {
        assert Agree(l, leader, last + 1);
      }
      if Agree(s, leader, |s|) {
        assert l[last] == leader[last];
      }
    }
  }

  lemma OfficeKeeps(n: Node)
    ensures var l := BecomeLeader(n); l.currentTerm == n.currentTerm && l.votedFor == n.votedFor && l.role.Leader?
  {
    hide CommitPoint, Appends;
  }

  /** Within a term, a node that has voted forgets its vote exactly when it handles an append or a
      snapshot of that term. */
  lemma ForgetsVoteExactly(n: Node, from: NodeId, m: Message, draw: nat)
    requires n.votedFor.Some? && m.term <= n.currentTerm
    ensures Step(n, from, m, draw).currentTerm == n.currentTerm
    ensures Step(n, from, m, draw).votedFor != n.votedFor <==>
              (m.AppendEntries? || m.InstallSnapshot?) && m.term == n.currentTerm
  {
    hide CommitPoint, Appends, BecomeLeader, Log.Matches, Log.Splice, UpToDate, AppendFor;
    if m.RequestVoteReply? {
      OfficeKeeps(n.(votes := n.votes + {m.voterId}));
    }
  }

  /** The step rule for following a leader: an append or a snapshot of the current term or a later one
      starts it, and only a later term ends it. */
  lemma FollowsExactly(n: Node, from: NodeId, m: Message, draw: nat)
    ensures FollowsLeader(Step(n, from, m, draw)) <==>
              || ((m.AppendEntries? || m.InstallSnapshot?) && m.term >= n.currentTerm)
              || (FollowsLeader(n) && m.term <= n.currentTerm)
  {
    hide CommitPoint, Appends, BecomeLeader, Log.Matches, Log.Splice, UpToDate, AppendFor;
    if m.RequestVoteReply? {
      OfficeKeeps(n.(votes := n.votes + {m.voterId}));
    }
  }
}
