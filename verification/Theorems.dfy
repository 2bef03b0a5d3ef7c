/** Raft's safety properties, stated on the literal nodes of every sound run. */
module Theorems {
  import opened Basics
  import opened State
  import opened Logs
  import opened Nodes
  import opened Emission
  import opened Election
  import opened Worlds
  import opened Moves
  import opened Commitment
  import opened Leadership
  import opened Simulation
  import opened Handlers
  import opened Clusters
  import opened Safety
  import LeaderChain

  // ---- Every sound run is explained ----------------------------------------

  function Genesis(c: Cluster): World {
    World(Polls(map v | v in c.nodes :: Booth(0, Follower, None, false, {}, map[]), map[]),
          map v | v in c.nodes :: Peer([], 0, map[], map[], map[], map[]), map[], {})
  }

  lemma GenesisPeer(c: Cluster, v: NodeId)
    requires v in c.nodes
    ensures v in Genesis(c).peers && v in Genesis(c).polls.booths && PeerOk(Genesis(c), v)
    ensures BoothOk(Genesis(c).polls, v)
  {
  }

  lemma GenesisInv(c: Cluster)
    ensures Worlds.Inv(Genesis(c))
  {
    hide PeerOk, BoothOk;
    var w := Genesis(c);
    assert w.peers.Keys == c.nodes.Keys && w.polls.booths.Keys == c.nodes.Keys;
    forall v | v in c.nodes ensures PeerOk(w, v) && BoothOk(w.polls, v) {
      GenesisPeer(c, v);
    }
  }

  lemma GenesisNode(c: Cluster, v: NodeId)
    requires Initial(c) && v in c.nodes
    ensures NodeOk(Genesis(c), c, v)
  {
    var w := Genesis(c);
    assert w.peers.Keys == c.nodes.Keys;
  }

  lemma InitialExplained(c: Cluster)
    requires Initial(c)
    ensures Explains(Genesis(c), c)
  {
    hide Worlds.Inv, NodeOk;
    GenesisInv(c);
    forall v | v in c.nodes ensures NodeOk(Genesis(c), c, v) {
      GenesisNode(c, v);
    }
  }

  lemma {:induction false} RunExplained(r: Run, i: nat) returns (w: World)
    requires SoundRun(r) && i < |r.states|
    ensures Explains(w, r.states[i])
  {
    hide Explains, SoundStep, Initial;
    if i == 0 {
      w := Genesis(r.states[0]);
      InitialExplained(r.states[0]);
    } else {
      var u := RunExplained(r, i - 1);
      w := StepExplained(u, r.states[i - 1], r.events[i - 1]);
    }
  }

  /** Two moments of one run, explained by two worlds of which the later one grew out of the earlier. */
  lemma {:induction false} RunGrows(r: Run, i: nat, j: nat) returns (w: World, x: World)
    requires SoundRun(r) && i <= j < |r.states|
    ensures Explains(w, r.states[i]) && Explains(x, r.states[j]) && Grows(w, x)
    decreases j
  {
    hide SoundStep, Initial, Worlds.Inv, Grows, NodeOk, NetOk;
    if i == j {
      w := RunExplained(r, i);
      x := w;
      GrowsReflexive(w);
    } else {
      var y;
      w, y := RunGrows(r, i, j - 1);
      x := StepExplained(y, r.states[j - 1], r.events[j - 1]);
      GrowsTransitive(w, y, x);
    }
  }

  // ---- The theorems --------------------------------------------------------

  /** Where both logs still have entries, they are the same up to `index`. */
  ghost predicate SameUpTo(a: Log, b: Log, index: nat) {
    forall p: nat :: p <= index && a.Get(p).Some? && b.Get(p).Some? ==> a.Get(p) == b.Get(p)
  }

  lemma AgreeMeansSame(a: Log, l: FullLog, b: Log, m: FullLog, index: nat)
    requires Compacts(a, l) && Compacts(b, m) && Agree(l, m, index)
    ensures SameUpTo(a, b, index) && a.LastIndex() >= index && b.LastIndex() >= index
  {
  }

  lemma MatchAt(a: Log, l: FullLog, b: Log, m: FullLog, index: nat)
    requires Compacts(a, l) && Compacts(b, m) && Splicing.Matching(l, m)
    requires a.Get(index).Some? && b.Get(index).Some? && a.TermAt(index) == b.TermAt(index)
    ensures Agree(l, m, index)
  {
    assert l[index - 1].term == m[index - 1].term;
  }

  /** Match-index soundness: what a leader believes a peer of its term holds, the peer holds. */
  lemma MatchIndexSound(r: Run, i: nat, leader: NodeId, u: NodeId)
    requires SoundRun(r) && i < |r.states| && leader in r.states[i].nodes && u in r.states[i].nodes
    requires var a, b := r.states[i].nodes[leader], r.states[i].nodes[u];
             a.role.Leader? && b.currentTerm == a.currentTerm
    ensures var a, b := r.states[i].nodes[leader], r.states[i].nodes[u];
            var k := a.progress.Matched(u);
            a.log.LastIndex() >= k && b.log.LastIndex() >= k && SameUpTo(a.log, b.log, k)
  {
    hide SoundRun, Worlds.Inv, Grows, NetOk, OutputOk, Compacts, SameUpTo, OutboxOk, CommitOk, Grounded;
    var w := RunExplained(r, i);
    var a, b := r.states[i].nodes[leader], r.states[i].nodes[u];
    assert NodeOk(w, r.states[i], leader) && NodeOk(w, r.states[i], u);
    if u in a.progress.matchIndex {
      AckedPrefix(w, leader, u);
    }
    AgreeMeansSame(a.log, w.peers[leader].log, b.log, w.peers[u].log, a.progress.Matched(u));
  }

  lemma AckedPrefix(w: World, leader: NodeId, u: NodeId)
    requires Worlds.Inv(w) && leader in w.peers && u in w.peers && w.polls.booths[leader].role.Leader?
    requires w.polls.booths[u].term == w.polls.booths[leader].term && u in w.peers[leader].matched
    ensures Agree(w.peers[leader].log, w.peers[u].log, w.peers[leader].matched[u])
  {
    hide LogOk, HistoryOk, KeepOk, BallotsKeepOk, ReignOk, LeadOk, ChoiceOk, Election.Inv, PeerOk;
    InvFacts(w, leader);
    PeerFacts(w, leader);
    InvFacts(w, u);
    PeerFacts(w, u);
  }

  lemma HeldFromThenOn(r: Run, i: nat, j: nat, u: NodeId, leader: NodeId)
    requires SoundRun(r) && i <= j < |r.states| && u in r.states[i].nodes && leader in r.states[j].nodes
    requires r.states[j].nodes[leader].role.Leader?
    requires r.states[j].nodes[leader].currentTerm >= r.states[i].nodes[u].currentTerm
    ensures var a, b := r.states[i].nodes[u], r.states[j].nodes[leader];
            b.log.LastIndex() >= a.commitIndex && SameUpTo(a.log, b.log, a.commitIndex)
  {
    hide SoundRun, Worlds.Inv, Grows, NetOk, OutputOk, Compacts, SameUpTo, OutboxOk, CommitOk, Grounded;
    var a, b := r.states[i].nodes[u], r.states[j].nodes[leader];
    var w, x := RunGrows(r, i, j);
    assert NodeOk(w, r.states[i], u) && NodeOk(x, r.states[j], leader);
    LogFacts(w, u);
    CommitStays(w, x, a.currentTerm, w.peers[u].log, a.commitIndex);
    LeaderFacts(x, leader);
    CommitHeld(x, a.currentTerm, w.peers[u].log, a.commitIndex, b.currentTerm);
    AgreeMeansSame(a.log, w.peers[u].log, b.log, x.peers[leader].log, a.commitIndex);
  }

  /** A leader of a later term held it even before it was known to be committed. */
  lemma HeldBefore(r: Run, j: nat, i: nat, u: NodeId, leader: NodeId)
    requires SoundRun(r) && j <= i < |r.states| && u in r.states[i].nodes && leader in r.states[j].nodes
    requires r.states[j].nodes[leader].role.Leader?
    requires r.states[j].nodes[leader].currentTerm > r.states[i].nodes[u].currentTerm
    ensures var a, b := r.states[i].nodes[u], r.states[j].nodes[leader];
            b.log.LastIndex() >= a.commitIndex && SameUpTo(a.log, b.log, a.commitIndex)
  {
    hide SoundRun, Worlds.Inv, Grows, NetOk, OutputOk, Compacts, SameUpTo, OutboxOk, CommitOk, Grounded, ReignOk;
    var a, b := r.states[i].nodes[u], r.states[j].nodes[leader];
    var w, x := RunGrows(r, j, i);
    assert NodeOk(w, r.states[j], leader) && NodeOk(x, r.states[i], u);
    LogFacts(x, u);
    LeaderFacts(w, leader);
    GrowsReigns(w, x);
    BaseHeld(x, a.currentTerm, x.peers[u].log, a.commitIndex, b.currentTerm);
    BaseInLog(w, b.currentTerm);
    AgreeMeansSame(a.log, x.peers[u].log, b.log, w.peers[leader].log, a.commitIndex);
  }

  lemma BaseHeld(w: World, s: nat, l: FullLog, k: nat, term: nat)
    requires Worlds.Inv(w) && CommitOk(w, s, l, k) && s < term && term in w.reigns
    ensures Agree(l, w.reigns[term].base, k)
  {
    hide Worlds.Inv;
    if k > 0 {
      var c :| Covers(w, c, s, l, k);
      LeaderCompleteness(w, c, term);
    }
  }

  lemma BaseInLog(w: World, term: nat)
    requires Worlds.Inv(w) && term in w.reigns
    ensures Agree(w.reigns[term].log, w.reigns[term].base, |w.reigns[term].base|)
  {
    hide LeadOk, PeerOk, ChoiceOk, Election.Inv, Grounded, Sorted, Below;
    assert ReignOk(w, term);
  }

  /** Leader completeness: what any node knows to be committed, every leader of a later term holds at
      all times, and a leader of the same term holds from then on. */
  lemma LeadersAreComplete(r: Run, i: nat, j: nat, u: NodeId, leader: NodeId)
    requires SoundRun(r) && i < |r.states| && j < |r.states| && u in r.states[i].nodes && leader in r.states[j].nodes
    requires r.states[j].nodes[leader].role.Leader?
    requires var s, t := r.states[i].nodes[u].currentTerm, r.states[j].nodes[leader].currentTerm;
             t > s || (t == s && i <= j)
    ensures var a, b := r.states[i].nodes[u], r.states[j].nodes[leader];
            b.log.LastIndex() >= a.commitIndex && SameUpTo(a.log, b.log, a.commitIndex)
  {
    hide SoundRun, SameUpTo;
    if i <= j {
      HeldFromThenOn(r, i, j, u, leader);
    } else {
      HeldBefore(r, j, i, u, leader);
    }
  }

  lemma CommitHeld(w: World, s: nat, l: FullLog, k: nat, term: nat)
    requires Worlds.Inv(w) && CommitOk(w, s, l, k) && s <= term && term in w.reigns
    ensures Agree(l, w.reigns[term].log, k)
  {
    hide Worlds.Inv;
    if k > 0 {
      var c :| Covers(w, c, s, l, k);
      LeaderCompleteness(w, c, term);
    }
  }

  /** Every node keeps its indices in order, whatever its role: snapshot, applied, commit, last. */
  lemma IndicesInOrder(r: Run, i: nat, v: NodeId)
    requires SoundRun(r) && i < |r.states| && v in r.states[i].nodes
    ensures LeaderChain.Chain(r.states[i].nodes[v])
  {
    hide SoundRun, Worlds.Inv, NetOk, Compacts, OutboxOk, CommitOk, Grounded, Emitted;
    var w := RunExplained(r, i);
    var n := r.states[i].nodes[v];
    assert NodeOk(w, r.states[i], v);
    LogFacts(w, v);
    CommitWithinLog(w, n.currentTerm, w.peers[v].log, n.commitIndex);
    LastAgrees(n.log, w.peers[v].log);
  }

  /** State machine safety: of what any two nodes have handed to their state machines, at any two
      moments, one is a prefix of the other. */
  lemma StateMachineSafety(r: Run, i: nat, j: nat, u: NodeId, v: NodeId)
    requires SoundRun(r) && i <= j < |r.states| && u in r.states[i].nodes && v in r.states[j].nodes
    ensures u in r.states[i].delivered && v in r.states[j].delivered
    ensures var a, b := r.states[i].delivered[u], r.states[j].delivered[v]; a <= b || b <= a
  {
    hide SoundRun, Worlds.Inv, Grows, NetOk, Compacts, OutboxOk, CommitOk, Grounded, Emitted;
    var w, x := RunGrows(r, i, j);
    var a, b := r.states[i].nodes[u], r.states[j].nodes[v];
    assert NodeOk(w, r.states[i], u) && NodeOk(x, r.states[j], v);
    var l, m := w.peers[u].log, x.peers[v].log;
    LogFacts(w, u);
    LogFacts(x, v);
    CommitStays(w, x, a.currentTerm, l, a.commitIndex);
    TwoCommits(x, a.currentTerm, l, a.commitIndex, b.currentTerm, m, b.commitIndex);
    EmittedComparable(l, a.lastApplied, m, b.lastApplied);
  }

  lemma EmittedComparable(l: FullLog, j: nat, m: FullLog, k: nat)
    requires Agree(l, m, Min(j, k))
    ensures Emitted(l, j) <= Emitted(m, k) || Emitted(m, k) <= Emitted(l, j)
  {
    hide Emitted;
    EmittedStays(l, m, Min(j, k));
    EmittedPrefix(l, Min(j, k), j);
    EmittedPrefix(m, Min(j, k), k);
  }

  /** No two nodes ever emit different commands at the same index, and none emits an index twice. */
  lemma OneCommandPerIndex(r: Run, i: nat, j: nat, u: NodeId, v: NodeId, p: nat, q: nat)
    requires SoundRun(r) && i <= j < |r.states| && u in r.states[i].nodes && v in r.states[j].nodes
    requires u in r.states[i].delivered && v in r.states[j].delivered
    requires p < |r.states[i].delivered[u]| && q < |r.states[j].delivered[v]|
    ensures var a, b := r.states[i].delivered[u][p], r.states[j].delivered[v][q];
            a.Command? && b.Command? && (a.index == b.index <==> p == q) && (p == q ==> a == b)
  {
    hide SoundRun, Worlds.Inv, Grows, NetOk, Compacts, OutboxOk, CommitOk, Grounded, Emitted;
    var w, x := RunGrows(r, i, j);
    assert NodeOk(w, r.states[i], u) && NodeOk(x, r.states[j], v);
    StateMachineSafety(r, i, j, u, v);
    var a, b := r.states[i].delivered[u], r.states[j].delivered[v];
    EmittedOrdered(w.peers[u].log, r.states[i].nodes[u].lastApplied);
    EmittedOrdered(x.peers[v].log, r.states[j].nodes[v].lastApplied);
    assert a <= Emitted(w.peers[u].log, r.states[i].nodes[u].lastApplied);
    assert b <= Emitted(x.peers[v].log, r.states[j].nodes[v].lastApplied);
  }

  /** Emitted indices strictly increase. */
  lemma {:induction false} EmittedOrdered(l: FullLog, k: nat)
    ensures forall p :: 0 <= p < |Emitted(l, k)| ==> Emitted(l, k)[p].Command? && Emitted(l, k)[p].index <= k
    ensures forall p, q :: 0 <= p < q < |Emitted(l, k)| ==> Emitted(l, k)[p].index < Emitted(l, k)[q].index
  {
    if k > 0 {
      EmittedOrdered(l, k - 1);
      var e := Emitted(l, k - 1);
      assert Emitted(l, k) == e + CommandAt(Plain(l), k);
    }
  }
}
