/** When a drain compacts, and how much of the applied log a node keeps. */
module Trimming {
  import opened Nodes
  import opened Clusters
  import opened LeaderChain
  import Theorems

  /** What a node keeps of the entries it has applied. */
  function Kept(n: Node): nat
    requires Chain(n)
  {
    n.lastApplied - n.log.snapshotIndex
  }

  /** While the indices are in order, a drain compacts exactly when what it would keep reaches the
      threshold, and then keeps nothing applied; either way the log ends where it did. */
  lemma CompactsExactly(n: Node)
    requires Chain(n)
    ensures var m := TakeReady(n).0;
            && Chain(m) && m.lastApplied == n.commitIndex && m.log.LastIndex() == n.log.LastIndex()
            && (if n.commitIndex - n.log.snapshotIndex >= n.config.snapshotThreshold then
                  && Kept(m) == 0
                  && m.log.snapshotTerm == n.log.TermAt(n.commitIndex).value
                  && m.log.entries == n.log.EntriesFrom(n.commitIndex + 1)
                else m.log == n.log && Kept(m) < n.config.snapshotThreshold)
  {
    hide CommandsIn;
    assert n.log.TermAt(n.commitIndex).Some?;
  }

  /** In every sound run, right after a drain, a node keeps fewer applied entries than its threshold, or
      none when the threshold is 0. */
  lemma DrainTrims(r: Run, i: nat)
    requires SoundRun(r) && i < |r.events| && r.events[i].Drains?
    ensures var v := r.events[i].node;
            && v in r.states[i + 1].nodes && Chain(r.states[i + 1].nodes[v])
            && var n := r.states[i + 1].nodes[v];
               Kept(n) == 0 || Kept(n) < n.config.snapshotThreshold
  {
    hide Initial, VoteStable, AckSound, SnapshotFree, TakeReady, Posted;
    var n := r.states[i].nodes[r.events[i].node];
    Theorems.IndicesInOrder(r, i, r.events[i].node);
    CompactsExactly(n);
    SameConfig(n);
  }

  lemma SameConfig(n: Node)
    ensures TakeReady(n).0.config == n.config
  {
    hide CommandsIn;
  }
}
