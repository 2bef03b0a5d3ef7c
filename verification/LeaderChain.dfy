/** What a leader's indices mean: their order, and how the commit index moves. */
module LeaderChain {
  import opened Basics
  import opened Messages
  import opened State
  import opened Logs
  import opened Nodes

  /** snapshot <= applied <= commit <= last */
  predicate Chain(n: Node) {
    n.log.snapshotIndex <= n.lastApplied <= n.commitIndex <= n.log.LastIndex()
  }

  lemma TermAtBound(log: Log, index: nat)
    requires log.TermAt(index).Some?
    ensures log.snapshotIndex <= index <= log.LastIndex()
  {
  }

  lemma AdvanceChain(n: Node)
    requires Chain(n)
    ensures Chain(AdvanceCommit(n))
  {
    hide CommitPoint;
    CommitPointIsGreatest(n, n.log.LastIndex());
  }

  lemma TickChain(n: Node, draw: nat)
    requires Chain(n) && n.role.Leader?
    ensures Chain(Tick(n, draw)) && Tick(n, draw).role.Leader?
  {
    hide BecomeCandidate;
  }

  lemma ProposeChain(n: Node, command: Command)
    requires Chain(n) && n.role.Leader?
    ensures Chain(Propose(n, command).0) && Propose(n, command).0.role.Leader?
  {
    hide AdvanceCommit, Appends;
    var m := n.(log := n.log.Append([LogEntry(n.currentTerm, command)]));
    AdvanceChain(BroadcastAppend(m));
    StillLeads(BroadcastAppend(m));
  }

  lemma StillLeads(n: Node)
    ensures AdvanceCommit(n) == n.(commitIndex := AdvanceCommit(n).commitIndex)
  {
    hide CommitPoint;
  }

  lemma DrainChain(n: Node)
    requires Chain(n)
    ensures Chain(TakeReady(n).0) && TakeReady(n).0.role == n.role && TakeReady(n).0.lastApplied == n.commitIndex
  {
    hide CommandsIn;
  }

  lemma ReplyChain(n: Node, from: NodeId, m: Message)
    requires Chain(n) && m.AppendEntriesReply?
    ensures Chain(HandleAppendEntriesReply(n, from, m))
  {
    hide AdvanceCommit, AppendFor;
    AdvanceChain(n.(progress := n.progress.SetMatch(from, m.matchIndex).SetNext(from, m.matchIndex + 1)));
  }

  /** Whatever message a leader handles without stepping down. */
  lemma StepChain(n: Node, from: NodeId, m: Message, draw: nat)
    requires Chain(n) && n.role.Leader? && Step(n, from, m, draw).role.Leader?
    ensures Chain(Step(n, from, m, draw))
  {
    hide HandleAppendEntriesReply, BecomeLeader, Log.Matches, Log.Splice, UpToDate;
    if m.AppendEntriesReply? {
      ReplyChain(Heed(n, m.term, draw), from, m);
    }
  }

  /** Everything a leader can be asked to do. */
  datatype Input =
    | Ticked(draw: nat)
    | Proposed(command: Command)
    | Drained
    | Received(from: NodeId, message: Message, draw: nat)

  function Feed(n: Node, i: Input): Node {
    match i
    case Ticked(draw) => Tick(n, draw)
    case Proposed(command) => Propose(n, command).0
    case Drained => TakeReady(n).0
    case Received(from, m, draw) => Step(n, from, m, draw)
  }

  function FeedAll(n: Node, inputs: seq<Input>): Node {
    if inputs == [] then n else Feed(FeedAll(n, inputs[..|inputs| - 1]), inputs[|inputs| - 1])
  }

  /** A leader keeps its indices in order for as long as it leads. */
  lemma {:induction false} LeaderKeepsChain(n: Node, inputs: seq<Input>)
    requires Chain(n) && forall k :: 0 <= k <= |inputs| ==> FeedAll(n, inputs[..k]).role.Leader?
    ensures Chain(FeedAll(n, inputs))
    decreases |inputs|
  {
    hide Tick, Propose, TakeReady, Step, Chain;
    if inputs != [] {
      var last := |inputs| - 1;
      var rest := inputs[..last];
      forall k | 0 <= k <= |rest| ensures FeedAll(n, rest[..k]).role.Leader? {
        assert rest[..k] == inputs[..k];
      }
      LeaderKeepsChain(n, rest);
      var m := FeedAll(n, rest);
      assert rest[..last] == rest && m.role.Leader?;
      assert inputs[..last + 1] == inputs && Feed(m, inputs[last]).role.Leader?;
      match inputs[last]
      case Ticked(draw) => TickChain(m, draw);
      case Proposed(command) => ProposeChain(m, command);
      case Drained => DrainChain(m);
      case Received(from, message, draw) => StepChain(m, from, message, draw);
    }
  }

  // ---- The commit rule -----------------------------------------------------

  /** The leader and the peers it knows to hold `index`. */
  function Holding(n: Node, index: nat): set<NodeId> {
    {n.id} + HolderSet(n.progress, n.peers, index)
  }

  /** An entry of the current term that a majority of the cluster is known to hold. */
  predicate HeldByMajority(n: Node, index: nat) {
    n.log.TermAt(index) == Some(n.currentTerm) && Majority(Elements(n.peers) + {n.id}, Holding(n, index))
  }

  lemma CommittableIsMajority(n: Node, index: nat)
    requires Distinct(n.peers) && n.id !in n.peers
    ensures Committable(n, index) <==> HeldByMajority(n, index)
  {
    hide Holders, Distinct, Log.TermAt;
    var holders := HolderSet(n.progress, n.peers, index);
    HoldersCountsPeers(n.progress, n.peers, index);
    DistinctCount(n.peers);
    assert n.id !in holders && n.id !in Elements(n.peers);
    assert |Elements(n.peers) + {n.id}| == |n.peers| + 1;
    assert |Holding(n, index)| == 1 + |holders|;
    assert Holding(n, index) <= Elements(n.peers) + {n.id};
  }

  /** `AdvanceCommit` moves to the greatest entry of the current term above the commit index that a
      majority holds, and stays put when there is none. */
  lemma AdvanceCommitRefines(n: Node)
    requires n.role.Leader? && Distinct(n.peers) && n.id !in n.peers
    ensures var r := AdvanceCommit(n).commitIndex;
            && r >= n.commitIndex && (r > n.commitIndex ==> HeldByMajority(n, r))
            && forall j :: r < j ==> !HeldByMajority(n, j)
  {
    hide CommitPoint, Committable, HeldByMajority;
    CommitPointIsGreatest(n, n.log.LastIndex());
    var r := AdvanceCommit(n).commitIndex;
    CommittableIsMajority(n, r);
    forall j | r < j ensures !HeldByMajority(n, j) {
      CommittableIsMajority(n, j);
      if HeldByMajority(n, j) {
        HeldBound(n, j);
      }
    }
  }

  lemma HeldBound(n: Node, j: nat)
    requires HeldByMajority(n, j)
    ensures j <= n.log.LastIndex()
  {
    TermAtBound(n.log, j);
  }

  /** A snapshot ack credits the leader's current snapshot point, and so never enables a commit: nothing
      above the commit index becomes committable by it. */
  lemma SnapshotAckCommitsNothing(n: Node, from: NodeId, m: Message, index: nat)
    requires Chain(n) && m.InstallSnapshotReply? && index > n.commitIndex
    ensures Committable(HandleInstallSnapshotReply(n, from, m), index) ==> Committable(n, index)
    ensures HandleInstallSnapshotReply(n, from, m).commitIndex == n.commitIndex
  {
    hide Log.TermAt, Holders;
    var s := n.log.snapshotIndex;
    FewerHolders(n.progress, n.progress.SetMatch(from, s).SetNext(from, s + 1), n.peers, from, index);
  }

  lemma {:induction false} FewerHolders(p: Progress, q: Progress, peers: seq<NodeId>, from: NodeId, index: nat)
    requires q.Matched(from) < index && forall v :: v != from ==> q.Matched(v) == p.Matched(v)
    ensures Holders(q, peers, index) <= Holders(p, peers, index)
  {
    if peers != [] {
      FewerHolders(p, q, peers[..|peers| - 1], from, index);
    }
  }
}
