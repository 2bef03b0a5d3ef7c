/**
 * Log repair terminates: a leader probing a follower walks back to where their
 * logs agree and then hands over everything after it.
 */
module Repair {
  import opened Basics
  import opened Messages
  import opened Logs
  import opened Nodes
  import opened Splicing
  import opened LeaderChain

  predicate TermsPositive(l: FullLog) {
    forall i :: 0 <= i < |l| ==> l[i].term >= 1
  }

  /** A leader and a follower of no later term, both uncompacted, with matching logs. */
  predicate Repairable(leader: Node, follower: Node) {
    && leader.role.Leader? && follower.currentTerm <= leader.currentTerm
    && leader.log == Plain(leader.log.entries) && follower.log == Plain(follower.log.entries)
    && Matching(follower.log.entries, leader.log.entries)
    && TermsPositive(leader.log.entries) && TermsPositive(follower.log.entries)
    && leader.progress.Next(follower.id) >= 1
  }

  /** The index the leader probes next. */
  function Probed(leader: Node, follower: NodeId): int {
    leader.progress.Next(follower) - 1
  }

  /** The follower after handling the leader's append. */
  function Answering(leader: Node, follower: Node, draw: nat): Node {
    Step(follower, leader.id, AppendFor(leader, follower.id), draw)
  }

  function Newest(out: seq<Envelope>): Envelope
    requires out != []
  {
    out[|out| - 1]
  }

  lemma ProbeIs(leader: Node, follower: Node)
    requires Repairable(leader, follower)
    ensures var prev := Probed(leader, follower.id);
            && prev >= 0
            && AppendFor(leader, follower.id) ==
                 AppendEntries(leader.currentTerm, leader.id, prev,
                               if prev <= |leader.log.entries| then TermOf(leader.log.entries, prev) else 0,
                               if prev <= |leader.log.entries| then leader.log.entries[prev..] else [],
                               leader.commitIndex)
  {
  }

  /** The probe passes only where both logs have an entry of the same term, or before the first one. */
  lemma ProbeMatches(leader: Node, follower: Node)
    requires Repairable(leader, follower)
    requires var m := AppendFor(leader, follower.id);
             m.AppendEntries? && follower.log.Matches(m.prevLogIndex, m.prevLogTerm)
    ensures Probed(leader, follower.id) <= |leader.log.entries|
    ensures Agree(follower.log.entries, leader.log.entries, Probed(leader, follower.id))
  {
    ProbeIs(leader, follower);
  }

  /** A rejected probe leaves the follower's log alone and names the next one: the highest index below the
      rejected one that the follower has at all. */
  lemma ProbeRejected(leader: Node, follower: Node, draw: nat)
    requires Repairable(leader, follower)
    requires var m := AppendFor(leader, follower.id);
             m.AppendEntries? && !follower.log.Matches(m.prevLogIndex, m.prevLogTerm)
    ensures var a := Answering(leader, follower, draw);
            && a.log == follower.log && a.id == follower.id && a.currentTerm == leader.currentTerm
            && a.outgoing != [] && Probed(leader, follower.id) >= 0
            && var next := Min(Probed(leader, follower.id), |follower.log.entries| + 1);
               && 1 <= next
               && Newest(a.outgoing) ==
                    Envelope(leader.id, AppendEntriesReply(leader.currentTerm, follower.id, false, 0, next))
  {
    hide AppendFor, Log.Splice, TermsPositive, Matching;
    ProbeIs(leader, follower);
    var prev: nat := Probed(leader, follower.id);
    assert prev > 0;
    var c := ConflictHint(follower, prev);
    assert c == Min(prev, |follower.log.entries| + 1);
  }

  /** An accepted probe hands over the leader's whole log. */
  lemma ProbeAccepted(leader: Node, follower: Node, draw: nat)
    requires Repairable(leader, follower)
    requires var m := AppendFor(leader, follower.id);
             m.AppendEntries? && follower.log.Matches(m.prevLogIndex, m.prevLogTerm)
    ensures var a := Answering(leader, follower, draw);
            && leader.log.entries <= a.log.entries && a.outgoing != []
            && Newest(a.outgoing) ==
                 Envelope(leader.id, AppendEntriesReply(leader.currentTerm, follower.id, true, a.log.LastIndex(), 0))
            && (leader.commitIndex <= |leader.log.entries| ==>
                  a.commitIndex == Max(follower.commitIndex, leader.commitIndex))
  {
    hide AppendFor, Log.Splice, TermsPositive, Log.Matches;
    ProbeIs(leader, follower);
    ProbeMatches(leader, follower);
    var prev: nat := Probed(leader, follower.id);
    var entries := leader.log.entries[prev..];
    SpliceOutcome(follower.log.entries, leader.log.entries, prev, entries);
    assert Answering(leader, follower, draw).log == follower.log.Splice(prev, entries);
    assert Answering(leader, follower, draw).log.entries == Spliced(follower.log.entries, prev, entries);
    assert Agree(Spliced(follower.log.entries, prev, entries), leader.log.entries, |leader.log.entries|);
  }

  // ---- The whole exchange --------------------------------------------------

  datatype Pair = Pair(leader: Node, follower: Node)

  /** The follower handles the append and the leader handles the reply. */
  function Exchange(p: Pair, draw: nat): Pair {
    var a := Answering(p.leader, p.follower, draw);
    if a.outgoing == [] || Newest(a.outgoing).to != p.leader.id then p.(follower := a)
    else Pair(Step(p.leader, p.follower.id, Newest(a.outgoing).message, draw), a)
  }

  function Exchanges(p: Pair, draws: seq<nat>): Pair
    decreases |draws|
  {
    if draws == [] then p else Exchanges(Exchange(p, draws[0]), draws[1..])
  }

  predicate Probing(p: Pair) {
    Repairable(p.leader, p.follower)
  }

  /** Nothing that a majority is known to hold is left uncommitted. */
  ghost predicate AllCommitted(n: Node) {
    forall j :: j > n.commitIndex ==> !HeldByMajority(n, j)
  }

  /** The follower's log begins with the leader's whole log, and it knows what of it is committed; the
      leader knows what the follower holds, will go on right after it, and has committed what it can. */
  ghost predicate Repaired(p: Pair, start: Node) {
    && p.leader.log == start.log && start.log.entries <= p.follower.log.entries
    && (start.commitIndex <= |start.log.entries| ==> p.follower.commitIndex >= start.commitIndex)
    && p.leader.progress.Matched(p.follower.id) == |p.follower.log.entries|
    && p.leader.progress.Next(p.follower.id) == |p.follower.log.entries| + 1
    && (Distinct(start.peers) && start.id !in start.peers ==> AllCommitted(p.leader))
  }

  /** The latest message the leader queued is the next probe of this follower. */
  predicate ProbeQueued(leader: Node, follower: NodeId) {
    leader.outgoing != [] && Newest(leader.outgoing) == Envelope(follower, AppendFor(leader, follower))
  }

  /** The exchange concerns this follower alone. */
  ghost predicate OthersKept(l: Node, m: Node, follower: NodeId) {
    && m.id == l.id && m.peers == l.peers && m.role == l.role && m.currentTerm == l.currentTerm
    && m.commitIndex >= l.commitIndex
    && forall v :: v != follower ==> m.progress.Matched(v) == l.progress.Matched(v)
  }

  lemma RejectionHandled(leader: Node, from: NodeId, c: nat, draw: nat)
    requires leader.role.Leader? && c >= 1
    ensures var l := Step(leader, from, AppendEntriesReply(leader.currentTerm, from, false, 0, c), draw);
            && l.log == leader.log && l.progress.Next(from) == c && l.commitIndex == leader.commitIndex
            && OthersKept(leader, l, from) && ProbeQueued(l, from)
  {
    hide AppendFor;
    var n := leader.(progress := leader.progress.SetNext(from, c));
    QueueBlind(n, SendAppend(n, from), from);
  }

  /** What a peer needs next does not depend on what is queued already. */
  lemma QueueBlind(n: Node, m: Node, peer: NodeId)
    requires m == n.(outgoing := m.outgoing)
    ensures AppendFor(m, peer) == AppendFor(n, peer)
  {
  }

  lemma SuccessHandled(leader: Node, from: NodeId, last: nat, draw: nat)
    requires leader.role.Leader?
    ensures var l := Step(leader, from, AppendEntriesReply(leader.currentTerm, from, true, last, 0), draw);
            && l.log == leader.log && l.progress.Matched(from) == last && l.progress.Next(from) == last + 1
            && OthersKept(leader, l, from)
            && (Distinct(leader.peers) && leader.id !in leader.peers ==> AllCommitted(l))
  {
    hide CommitPoint, HeldByMajority;
    var n := leader.(progress := leader.progress.SetMatch(from, last).SetNext(from, last + 1));
    CommitPointIsGreatest(n, n.log.LastIndex());
    if Distinct(leader.peers) && leader.id !in leader.peers {
      AdvanceCommitRefines(n);
      forall j | j > AdvanceCommit(n).commitIndex ensures !HeldByMajority(AdvanceCommit(n), j) {
        HeldAlike(n, AdvanceCommit(n), j);
      }
    }
  }

  lemma HeldAlike(n: Node, m: Node, j: nat)
    requires m == n.(commitIndex := m.commitIndex)
    ensures HeldByMajority(m, j) == HeldByMajority(n, j)
  {
  }

  /** One exchange repairs the follower, or keeps both logs, lowers the probed index and queues the next
      probe at once. */
  lemma ExchangeProgress(p: Pair, draw: nat)
    requires Probing(p)
    ensures var q := Exchange(p, draw);
            && OthersKept(p.leader, q.leader, p.follower.id) && q.follower.id == p.follower.id
            && (|| Repaired(q, p.leader)
                || (&& Probing(q) && q.leader.log == p.leader.log && q.leader.commitIndex == p.leader.commitIndex
                    && q.follower.log == p.follower.log && ProbeQueued(q.leader, p.follower.id)
                    && q.leader.progress.Next(p.follower.id) < p.leader.progress.Next(p.follower.id)))
  {
    hide AppendFor, Step, Log.Matches, Matching, TermsPositive, AllCommitted, Distinct, ProbeQueued;
    var m := AppendFor(p.leader, p.follower.id);
    ProbeIs(p.leader, p.follower);
    FollowerKeepsId(p.follower, p.leader.id, m, draw);
    if p.follower.log.Matches(m.prevLogIndex, m.prevLogTerm) {
      ProbeAccepted(p.leader, p.follower, draw);
      SuccessHandled(p.leader, p.follower.id, Answering(p.leader, p.follower, draw).log.LastIndex(), draw);
    } else {
      ProbeRejected(p.leader, p.follower, draw);
      RejectionHandled(p.leader, p.follower.id,
                       Min(Probed(p.leader, p.follower.id), |p.follower.log.entries| + 1), draw);
    }
  }

  lemma FollowerKeepsId(n: Node, from: NodeId, m: Message, draw: nat)
    requires m.AppendEntries?
    ensures Step(n, from, m, draw).id == n.id
    ensures n.log.snapshotIndex == 0 ==> Step(n, from, m, draw).log.LastIndex() == |Step(n, from, m, draw).log.entries|
  {
    hide Log.Splice, Log.Matches;
    SpliceKeepsPoint(n.log, m.prevLogIndex, m.entries);
  }

  /** From any probed index the exchange ends within that many rounds and one, with the follower's log
      beginning with the leader's whole log. Every probe but the first was queued by the round before. */
  lemma {:induction false} RepairTerminates(p: Pair, draws: seq<nat>) returns (n: nat)
    requires Probing(p) && |draws| >= p.leader.progress.Next(p.follower.id)
    ensures 1 <= n <= p.leader.progress.Next(p.follower.id)
    ensures var q := Exchanges(p, draws[..n]);
            && Repaired(q, p.leader) && OthersKept(p.leader, q.leader, p.follower.id)
            && q.follower.id == p.follower.id
    ensures forall k :: 1 <= k < n ==> ProbeQueued(Exchanges(p, draws[..k]).leader, p.follower.id)
    decreases p.leader.progress.Next(p.follower.id)
  {
    hide Exchange, Repairable, AllCommitted, HeldByMajority, Distinct, ProbeQueued;
    NextPositive(p);
    var q := Exchange(p, draws[0]);
    ExchangeProgress(p, draws[0]);
    if Repaired(q, p.leader) {
      n := 1;
      assert draws[..1][1..] == [] && Exchanges(q, []) == q;
    } else {
      var k := RepairTerminates(q, draws[1..]);
      n := k + 1;
      assert draws[..n][1..] == draws[1..][..k] && draws[..n][0] == draws[0];
      forall j | 1 <= j < n ensures ProbeQueued(Exchanges(p, draws[..j]).leader, p.follower.id) {
        assert draws[..j][1..] == draws[1..][..j - 1] && draws[..j][0] == draws[0];
      }
    }
  }

  /** `others` hold the leader's whole log, as far as the leader knows, and with this follower and the
      leader itself they are a majority. */
  predicate Completes(l: Node, follower: NodeId, others: set<NodeId>) {
    && Distinct(l.peers) && l.id !in l.peers && follower in l.peers
    && (forall v :: v in others ==> v in l.peers && l.progress.Matched(v) >= l.log.LastIndex())
    && Majority(Elements(l.peers) + {l.id}, others + {follower, l.id})
  }

  lemma HeldNow(l: Node, q: Node, follower: NodeId, others: set<NodeId>)
    requires Completes(l, follower, others) && OthersKept(l, q, follower) && q.log == l.log
    requires q.progress.Matched(follower) >= l.log.LastIndex()
    ensures Majority(Elements(q.peers) + {q.id}, Holding(q, l.log.LastIndex()))
  {
    hide Majority, Distinct;
    var held := Holding(q, l.log.LastIndex());
    forall v | v in others + {follower} ensures q.progress.Matched(v) >= l.log.LastIndex() {
    }
    assert others + {follower, l.id} <= held <= Elements(q.peers) + {q.id};
    MajorityGrows(Elements(q.peers) + {q.id}, others + {follower, l.id}, held);
  }

  /** When the repaired follower completes a majority, and the leader's last entry is of its own term, the
      leader's whole log gets committed. */
  lemma RepairCommits(p: Pair, draws: seq<nat>, others: set<NodeId>) returns (n: nat)
    requires Probing(p) && |draws| >= p.leader.progress.Next(p.follower.id)
    requires p.leader.log.entries != [] && p.leader.log.LastTerm() == p.leader.currentTerm
    requires Completes(p.leader, p.follower.id, others)
    ensures 1 <= n <= p.leader.progress.Next(p.follower.id)
    ensures Exchanges(p, draws[..n]).leader.commitIndex >= p.leader.log.LastIndex()
  {
    hide Exchanges, Matching, TermsPositive, Majority, Distinct, AllCommitted, Completes;
    n := RepairTerminates(p, draws);
    var q, last := Exchanges(p, draws[..n]).leader, p.leader.log.LastIndex();
    HeldNow(p.leader, q, p.follower.id, others);
    assert HeldByMajority(q, last);
    PeersDistinct(p.leader, p.follower.id, others);
    NothingLeft(q, last);
  }

  lemma PeersDistinct(l: Node, follower: NodeId, others: set<NodeId>)
    requires Completes(l, follower, others)
    ensures Distinct(l.peers) && l.id !in l.peers
  {
  }

  lemma NothingLeft(n: Node, j: nat)
    requires AllCommitted(n) && HeldByMajority(n, j)
    ensures n.commitIndex >= j
  {
  }

  lemma NextPositive(p: Pair)
    requires Probing(p)
    ensures p.leader.progress.Next(p.follower.id) >= 1
  {
  }
}
