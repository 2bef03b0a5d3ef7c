/** End to end: replicas that have applied equally much hold the same store. */
module Replicas {
  import opened Basics
  import opened Messages
  import opened Logs
  import opened Emission
  import opened Worlds
  import opened Simulation
  import opened Handlers
  import opened Clusters
  import opened Safety
  import opened Theorems
  import opened Stores
  import opened Drivers

  /** The store after applying the delivered items to an empty one, as the driver does. */
  function StoreAfter(codec: CommandCodec, items: seq<Committed>): Store {
    DeliverAll(codec, map[], map[], items).store
  }

  /** What a node has delivered is a function of how far it has applied: two nodes with the same applied
      index, at whatever moments, have delivered exactly the same. */
  lemma SameAppliedSameDelivered(r: Run, i: nat, j: nat, u: NodeId, v: NodeId)
    requires SoundRun(r) && i <= j < |r.states| && u in r.states[i].nodes && v in r.states[j].nodes
    requires r.states[i].nodes[u].lastApplied == r.states[j].nodes[v].lastApplied
    ensures u in r.states[i].delivered && v in r.states[j].delivered
    ensures r.states[i].delivered[u] == r.states[j].delivered[v]
  {
    hide SoundRun, Worlds.Inv, Grows, NetOk, Compacts, OutboxOk, CommitOk, Grounded, Emitted;
    var w, x := RunGrows(r, i, j);
    var a, b := r.states[i].nodes[u], r.states[j].nodes[v];
    assert NodeOk(w, r.states[i], u) && NodeOk(x, r.states[j], v);
    var l, m := w.peers[u].log, x.peers[v].log;
    LogFacts(w, u);
    LogFacts(x, v);
    CommitStays(w, x, a.currentTerm, l, a.commitIndex);
    TwoCommits(x, a.currentTerm, l, a.commitIndex, b.currentTerm, m, b.commitIndex);
    EmittedStays(l, m, a.lastApplied);
  }

  /** Replicas agree: in every sound run, nodes with the same applied index hold the same store. */
  lemma ReplicasAgree(codec: CommandCodec, r: Run, i: nat, j: nat, u: NodeId, v: NodeId)
    requires SoundRun(r) && i <= j < |r.states| && u in r.states[i].nodes && v in r.states[j].nodes
    requires r.states[i].nodes[u].lastApplied == r.states[j].nodes[v].lastApplied
    ensures u in r.states[i].delivered && v in r.states[j].delivered
    ensures StoreAfter(codec, r.states[i].delivered[u]) == StoreAfter(codec, r.states[j].delivered[v])
  {
    hide SoundRun, StoreAfter;
    SameAppliedSameDelivered(r, i, j, u, v);
  }
}
