/**
 * A cluster of nodes with static membership over a network that may lose,
 * duplicate, delay and reorder messages, and its runs.
 */
module Clusters {
  import opened Basics
  import opened Messages
  import opened Nodes

  datatype Packet = Packet(from: NodeId, to: NodeId, message: Message)

  /** `net` holds everything ever sent: a packet in it may be delivered any number of times, or never.
      `delivered` is what each node has handed to its state machine so far. */
  datatype Cluster = Cluster(nodes: map<NodeId, Node>, net: set<Packet>, delivered: map<NodeId, seq<Committed>>)

  datatype Event =
    | Ticks(node: NodeId, draw: nat)
    | Delivers(packet: Packet, draw: nat)
    | Proposes(node: NodeId, command: Command)
    | Drains(node: NodeId, data: seq<KeyValue>)

  /** The node that takes the step. */
  function Actor(e: Event): NodeId {
    match e
    case Ticks(v, _) => v
    case Delivers(p, _) => p.to
    case Proposes(v, _) => v
    case Drains(v, _) => v
  }

  predicate DrawOk(n: Node, draw: nat) {
    n.config.electionTimeoutMin <= draw <= n.config.electionTimeoutMax
  }

  predicate Enabled(c: Cluster, e: Event) {
    && Actor(e) in c.nodes && Actor(e) in c.delivered
    && (e.Ticks? || e.Delivers? ==> DrawOk(c.nodes[Actor(e)], e.draw))
    && (e.Delivers? ==> e.packet in c.net)
  }

  /** The node after the event. */
  function Acted(n: Node, e: Event): Node {
    match e
    case Ticks(_, draw) => Tick(n, draw)
    case Delivers(p, draw) => Step(n, p.from, p.message, draw)
    case Proposes(_, command) => Propose(n, command).0
    case Drains(_, _) => TakeReady(n).0
  }

  function Posted(v: NodeId, messages: seq<Envelope>, data: seq<KeyValue>): set<Packet> {
    set e | e in messages :: Packet(v, e.to, Filled(e.message, data))
  }

  function After(c: Cluster, e: Event): Cluster
    requires Enabled(c, e)
  {
    var v := Actor(e);
    var n := c.nodes[v];
    var d := c.(nodes := c.nodes[v := Acted(n, e)]);
    if e.Drains? then
      var ready := TakeReady(n).1;
      d.(net := c.net + Posted(v, ready.messages, e.data),
         delivered := c.delivered[v := c.delivered[v] + ready.committed])
    else d
  }

  /** Distinct ids, and every node's peers are all the others. */
  predicate Membership(c: Cluster) {
    && c.delivered.Keys == c.nodes.Keys
    && forall v :: v in c.nodes ==>
         var n := c.nodes[v]; n.id == v && Elements(n.peers) == c.nodes.Keys - {v} && Distinct(n.peers)
  }

  predicate Initial(c: Cluster) {
    && Membership(c) && c.net == {}
    && forall v :: v in c.nodes ==>
         var n := c.nodes[v]; n == NewNode(v, n.peers, n.config, n.electionTimeout) && c.delivered[v] == []
  }

  datatype Run = Run(states: seq<Cluster>, events: seq<Event>)

  predicate IsRun(r: Run) {
    && |r.states| == |r.events| + 1 && Initial(r.states[0])
    && forall i :: 0 <= i < |r.events| ==>
         Enabled(r.states[i], r.events[i]) && r.states[i + 1] == After(r.states[i], r.events[i])
  }

  // ---- What the safety theorems ask of a run -------------------------------

  /** The receiver of a packet, after stepping down to a higher term if it must. */
  function Receiver(c: Cluster, e: Event): Node
    requires Enabled(c, e) && e.Delivers?
  {
    Heed(c.nodes[e.packet.to], e.packet.message.term, e.draw)
  }

  /** No vote is granted after accepting an append or a snapshot of the same term. */
  predicate VoteStable(c: Cluster, e: Event)
    requires Enabled(c, e)
  {
    e.Delivers? && e.packet.message.RequestVote? && FollowsLeader(Receiver(c, e)) ==>
      !Grants(Receiver(c, e), e.packet.message)
  }

  /** The event is an append that passes the term and consistency checks. */
  predicate AcceptsAppend(c: Cluster, e: Event)
    requires Enabled(c, e)
  {
    && e.Delivers? && e.packet.message.AppendEntries?
    && var n, m := Receiver(c, e), e.packet.message;
       m.term == n.currentTerm && n.log.Matches(m.prevLogIndex, m.prevLogTerm)
  }

  /** An accepted append leaves no suffix of an older leader behind. */
  predicate AckSound(c: Cluster, e: Event)
    requires Enabled(c, e)
  {
    AcceptsAppend(c, e) ==> AckIsSound(Receiver(c, e).log, e.packet.message)
  }

  /** Compaction may happen at any time, but no snapshot is installed and no append from the very
      beginning is accepted by a compacted log. */
  predicate SnapshotFree(c: Cluster, e: Event)
    requires Enabled(c, e)
  {
    && (AcceptsAppend(c, e) && e.packet.message.prevLogIndex == 0 ==> Receiver(c, e).log.snapshotIndex == 0)
    && (e.Delivers? && e.packet.message.InstallSnapshot? ==>
          e.packet.message.term < c.nodes[e.packet.to].currentTerm)
  }

  predicate VoteStableRun(r: Run) {
    IsRun(r) && forall i :: 0 <= i < |r.events| ==> VoteStable(r.states[i], r.events[i])
  }

  predicate SoundStep(c: Cluster, e: Event) {
    Enabled(c, e) && VoteStable(c, e) && AckSound(c, e) && SnapshotFree(c, e)
  }

  predicate SoundRun(r: Run) {
    IsRun(r) && forall i :: 0 <= i < |r.events| ==> SoundStep(r.states[i], r.events[i])
  }
}
