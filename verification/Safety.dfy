/** Raft's safety properties for every sound run of the cluster. */
module Safety {
  import opened Basics
  import opened Messages
  import opened Logs
  import opened Nodes
  import opened Emission
  import opened Worlds
  import opened Commitment
  import opened Simulation
  import opened Handlers
  import opened Clusters

  ghost predicate NetOk(w: World, net: set<Packet>) {
    forall p :: p in net ==> PacketOk(w, p.from, p.to, p.message)
  }

  ghost predicate NodeOk(w: World, c: Cluster, v: NodeId)
    requires v in c.nodes && v in c.delivered
  {
    Tracks(w, v, c.nodes[v]) && v in w.peers && OutputOk(w.peers[v].log, c.nodes[v], c.delivered[v])
  }

  /** World `w` explains cluster `c`. */
  ghost predicate Explains(w: World, c: Cluster) {
    && Worlds.Inv(w) && c.nodes.Keys == w.peers.Keys && c.delivered.Keys == w.peers.Keys
    && (forall v :: v in c.nodes ==> NodeOk(w, c, v))
    && NetOk(w, c.net)
  }

  // ---- One step ------------------------------------------------------------

  lemma StepSim(w: World, v: NodeId, n: Node, from: NodeId, m: Message, draw: nat) returns (x: World)
    requires Worlds.Inv(w) && Tracks(w, v, n) && PacketOk(w, from, v, m)
    requires var h := Heed(n, m.term, draw);
             && (m.RequestVote? && FollowsLeader(h) ==> !Grants(h, m))
             && (m.AppendEntries? && m.term == h.currentTerm && h.log.Matches(m.prevLogIndex, m.prevLogTerm) ==>
                   AckIsSound(h.log, m) && (m.prevLogIndex == 0 ==> h.log.snapshotIndex == 0))
             && (m.InstallSnapshot? ==> m.term < n.currentTerm)
    ensures Follows(w, x, v, Step(n, from, m, draw))
    ensures Silent(n, Step(n, from, m, draw))
  {
    hide Worlds.Inv, Grows, Mirrors, OutboxOk, OnlyMoved, PacketOk, AckIsSound, Log.Matches, Log.Splice, Follows,
      HandleRequestVote, HandleRequestVoteReply, HandleAppendEntries, HandleAppendEntriesReply, Grants, FollowsLeader,
      Silent;
    var h := Heed(n, m.term, draw);
    var y := HeedSim(w, v, n, m.term, draw);
    FollowsFacts(w, y, v, h);
    PacketStays(w, y, from, v, m);
    NoSnapshotReplies(w, from, v, m);
    match m {
      case RequestVote(_, _, _, _) => x := VoteSim(y, v, h, from, m, draw);
      case RequestVoteReply(_, _, _) => x := TallySim(y, v, h, from, m);
      case AppendEntries(_, _, _, _, _, _) => x := AppendSim(y, v, h, from, m, draw);
      case AppendEntriesReply(_, _, _, _, _) => x := ReplySim(y, v, h, from, m);
      case InstallSnapshot(_, _, _, _, _) => x := y; IdleSim(y, v, h, h);
      case InstallSnapshotReply(_, _) => x := y;
    }
    StepSilent(n, from, m, draw);
    FollowsTransitive(w, y, x, v, h, Step(n, from, m, draw));
  }

  lemma NoSnapshotReplies(w: World, from: NodeId, to: NodeId, m: Message)
    requires PacketOk(w, from, to, m)
    ensures !m.InstallSnapshotReply?
  {
  }

  /** What is committed never changes again. */
  lemma CommittedStays(w: World, x: World, v: NodeId)
    requires Worlds.Inv(w) && Worlds.Inv(x) && Grows(w, x) && v in w.peers && v in x.peers
    requires w.peers[v].commit <= x.peers[v].commit
    ensures Agree(w.peers[v].log, x.peers[v].log, w.peers[v].commit)
  {
    hide Worlds.Inv, Grows, Grounded;
    LogFacts(w, v);
    LogFacts(x, v);
    var k := w.peers[v].commit;
    if k > 0 {
      CommitStays(w, x, w.polls.booths[v].term, w.peers[v].log, k);
      TwoCommits(x, w.polls.booths[v].term, w.peers[v].log, k,
                 x.polls.booths[v].term, x.peers[v].log, x.peers[v].commit);
    }
  }

  /** Two committed prefixes agree as far as both reach. */
  lemma TwoCommits(w: World, s: nat, l: FullLog, j: nat, t: nat, m: FullLog, k: nat)
    requires Worlds.Inv(w) && CommitOk(w, s, l, j) && CommitOk(w, t, m, k)
    ensures Agree(l, m, Min(j, k))
  {
    hide Worlds.Inv;
    if j > 0 && k > 0 {
      var c :| Covers(w, c, s, l, j);
      var d :| Covers(w, d, t, m, k);
      ChoicesAgree(w, c, d, Min(j, k));
    }
  }

  lemma SilentOutput(w: World, x: World, v: NodeId, n: Node, m: Node, given: seq<Committed>)
    requires Worlds.Inv(w) && Worlds.Inv(x) && Grows(w, x) && Mirrors(w, v, n) && Mirrors(x, v, m)
    requires Silent(n, m) && OutputOk(w.peers[v].log, n, given)
    ensures OutputOk(x.peers[v].log, m, given)
  {
    hide Worlds.Inv, Grows, Compacts, Emitted;
    CommittedStays(w, x, v);
    EmittedStays(w.peers[v].log, x.peers[v].log, n.lastApplied);
  }

  /** A tick, a delivery or a proposal. */
  lemma ActSim(w: World, c: Cluster, e: Event) returns (x: World)
    requires Explains(w, c) && SoundStep(c, e) && !e.Drains?
    ensures Follows(w, x, Actor(e), Acted(c.nodes[Actor(e)], e))
    ensures Silent(c.nodes[Actor(e)], Acted(c.nodes[Actor(e)], e))
  {
    hide Worlds.Inv, Grows, Tracks, PacketOk, AckIsSound, Log.Matches, Follows, OutputOk, Silent, Tick, Step, Propose,
      Grants, FollowsLeader, DrawOk;
    var v := Actor(e);
    assert NodeOk(w, c, v);
    match e {
      case Ticks(_, draw) => x := TickSim(w, v, c.nodes[v], draw); TickSilent(c.nodes[v], draw);
      case Delivers(p, draw) => x := StepSim(w, v, c.nodes[v], p.from, p.message, draw);
      case Proposes(_, command) => x := ProposeSim(w, v, c.nodes[v], command); ProposeSilent(c.nodes[v], command);
    }
  }

  /** The other nodes are explained as before. */
  lemma OthersExplained(w: World, x: World, c: Cluster, d: Cluster, v: NodeId, u: NodeId)
    requires Explains(w, c) && Grows(w, x) && OnlyMoved(w, x, v) && u in c.nodes && u != v
    requires u in d.nodes && u in d.delivered && d.nodes[u] == c.nodes[u] && d.delivered[u] == c.delivered[u]
    ensures NodeOk(x, d, u)
  {
    hide Worlds.Inv, Grows, NetOk, OutboxOk, OutputOk, Compacts;
    assert NodeOk(w, c, u);
    OutboxStays(w, x, u, c.nodes[u].outgoing);
  }

  lemma NetStays(w: World, x: World, net: set<Packet>)
    requires Grows(w, x) && NetOk(w, net)
    ensures NetOk(x, net)
  {
    hide Grows, PacketOk;
    forall p | p in net ensures PacketOk(x, p.from, p.to, p.message) {
      PacketStays(w, x, p.from, p.to, p.message);
    }
  }

  lemma ActExplained(w: World, c: Cluster, e: Event) returns (x: World)
    requires Explains(w, c) && SoundStep(c, e) && !e.Drains?
    ensures Explains(x, After(c, e)) && Grows(w, x)
  {
    hide Worlds.Inv, Grows, Tracks, OutputOk, Silent, VoteStable, AckSound, SnapshotFree, Acted, NetOk, OnlyMoved,
      Mirrors;
    var v, d := Actor(e), After(c, e);
    x := ActSim(w, c, e);
    assert NodeOk(w, c, v);
    TracksFacts(w, v, c.nodes[v]);
    TracksFacts(x, v, d.nodes[v]);
    MirrorFacts(x, v, d.nodes[v]);
    SilentOutput(w, x, v, c.nodes[v], d.nodes[v], c.delivered[v]);
    MovedKeys(w, x, v);
    NetStays(w, x, c.net);
    forall u | u in d.nodes ensures NodeOk(x, d, u) {
      if u != v {
        OthersExplained(w, x, c, d, v, u);
      }
    }
  }

  lemma MovedKeys(w: World, x: World, v: NodeId)
    requires OnlyMoved(w, x, v)
    ensures x.peers.Keys == w.peers.Keys
  {
  }

  lemma FilledOk(w: World, from: NodeId, to: NodeId, m: Message, data: seq<KeyValue>)
    requires PacketOk(w, from, to, m)
    ensures PacketOk(w, from, to, Filled(m, data))
  {
  }

  lemma PostedOk(w: World, v: NodeId, messages: seq<Envelope>, data: seq<KeyValue>)
    requires OutboxOk(w, v, messages)
    ensures NetOk(w, Posted(v, messages, data))
  {
    hide PacketOk, Filled;
    forall p | p in Posted(v, messages, data) ensures PacketOk(w, p.from, p.to, p.message) {
      var e :| e in messages && p == Packet(v, e.to, Filled(e.message, data));
      FilledOk(w, v, e.to, e.message, data);
    }
  }

  lemma DrainMirrors(w: World, v: NodeId, n: Node, m: Node)
    requires Mirrors(w, v, n) && Compacts(m.log, w.peers[v].log)
    requires m == n.(log := m.log, lastApplied := n.commitIndex, outgoing := [], committed := [])
    ensures Tracks(w, v, m)
  {
    hide Compacts;
  }

  lemma DrainExplained(w: World, c: Cluster, e: Event)
    requires Explains(w, c) && Enabled(c, e) && e.Drains?
    ensures Explains(w, After(c, e)) && Grows(w, w)
  {
    hide Worlds.Inv, Grows, OutputOk, Mirrors, OutboxOk, PacketOk, TakeReady, Posted, CommitOk, Grounded, Compacts;
    var v, d := e.node, After(c, e);
    var n := c.nodes[v];
    assert NodeOk(w, c, v);
    MirrorFacts(w, v, n);
    LogFacts(w, v);
    CommitWithinLog(w, n.currentTerm, w.peers[v].log, n.commitIndex);
    DrainEmits(w.peers[v].log, n, c.delivered[v]);
    DrainMirrors(w, v, n, d.nodes[v]);
    PostedOk(w, v, n.outgoing, e.data);
    GrowsReflexive(w);
    forall u | u in d.nodes ensures NodeOk(w, d, u) {
      if u != v {
        assert NodeOk(w, c, u);
      }
    }
  }

  lemma StepExplained(w: World, c: Cluster, e: Event) returns (x: World)
    requires Explains(w, c) && SoundStep(c, e)
    ensures Explains(x, After(c, e)) && Grows(w, x)
  {
    if e.Drains? {
      x := w;
      DrainExplained(w, c, e);
    } else {
      x := ActExplained(w, c, e);
    }
  }
}
