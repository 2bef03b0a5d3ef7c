/** Nothing is made up: in every run, whatever a node applies was proposed before. */
module Validity {
  import opened Basics
  import opened Messages
  import opened Logs
  import opened Nodes
  import opened Emission
  import opened Clusters

  /** Every command in the entries is one of `asked`. */
  predicate Known(entries: seq<LogEntry>, asked: set<Command>) {
    forall k :: 0 <= k < |entries| ==> entries[k].command in asked
  }

  predicate MessageKnown(m: Message, asked: set<Command>) {
    m.AppendEntries? ==> Known(m.entries, asked)
  }

  predicate OutboxKnown(out: seq<Envelope>, asked: set<Command>) {
    forall k :: 0 <= k < |out| ==> MessageKnown(out[k].message, asked)
  }

  predicate ItemsKnown(items: seq<Committed>, asked: set<Command>) {
    forall k :: 0 <= k < |items| && items[k].Command? ==> items[k].command in asked
  }

  predicate NodeKnown(n: Node, asked: set<Command>) {
    Known(n.log.entries, asked) && OutboxKnown(n.outgoing, asked) && ItemsKnown(n.committed, asked)
  }

  // ---- The log -------------------------------------------------------------

  lemma {:induction false} SpliceKnown(log: Log, next: nat, entries: seq<LogEntry>, asked: set<Command>)
    requires Known(log.entries, asked) && Known(entries, asked)
    ensures Known(log.SpliceAt(next, entries).entries, asked)
    decreases |entries|
  {
    if entries != [] && log.TermAt(next) == Some(entries[0].term) {
      SpliceKnown(log, next + 1, entries[1..], asked);
    }
  }

  lemma CommandsKnown(log: Log, a: nat, b: nat, asked: set<Command>)
    requires Known(log.entries, asked)
    ensures ItemsKnown(CommandsIn(log, a, b), asked)
  {
    forall k | 0 <= k < |CommandsIn(log, a, b)| && CommandsIn(log, a, b)[k].Command?
      ensures CommandsIn(log, a, b)[k].command in asked
    {
      CommandsAt(log, a, b, CommandsIn(log, a, b)[k]);
    }
  }

  // ---- The handlers --------------------------------------------------------

  lemma AppendsKnown(n: Node, asked: set<Command>)
    requires Known(n.log.entries, asked)
    ensures OutboxKnown(Appends(n), asked)
    ensures forall peer :: MessageKnown(AppendFor(n, peer), asked)
  {
    forall peer ensures MessageKnown(AppendFor(n, peer), asked) {
    }
  }

  lemma OfficeKnown(n: Node, asked: set<Command>)
    requires NodeKnown(n, asked)
    ensures NodeKnown(BecomeLeader(n), asked)
  {
    hide Known, CommitPoint, AppendFor;
    AppendsKnown(TakeOffice(n), asked);
  }

  lemma TickKnown(n: Node, draw: nat, asked: set<Command>)
    requires NodeKnown(n, asked)
    ensures NodeKnown(Tick(n, draw), asked)
  {
    hide BecomeLeader, AppendFor, Known;
    var c := StandForElection(n.(electionElapsed := n.electionElapsed + 1), draw);
    OfficeKnown(c, asked);
    AppendsKnown(n.(heartbeatElapsed := 0), asked);
    forall k | 0 <= k < |VoteRequests(c)| ensures VoteRequests(c)[k].message.RequestVote? {
      assert VoteRequests(c)[k] == Envelope(c.peers[k], VoteRequest(c));
    }
  }

  lemma ProposeKnown(n: Node, command: Command, asked: set<Command>)
    requires NodeKnown(n, asked) && (n.role.Leader? ==> command in asked)
    ensures NodeKnown(Propose(n, command).0, asked)
  {
    hide CommitPoint, AppendFor;
    if n.role.Leader? {
      AppendsKnown(n.(log := n.log.Append([LogEntry(n.currentTerm, command)])), asked);
    }
  }

  lemma StepKnown(n: Node, from: NodeId, m: Message, draw: nat, asked: set<Command>)
    requires NodeKnown(n, asked) && MessageKnown(m, asked)
    ensures NodeKnown(Step(n, from, m, draw), asked)
  {
    hide BecomeLeader, CommitPoint, AppendFor, Log.SpliceAt, Log.Matches, UpToDate, ConflictHint;
    var h := Heed(n, m.term, draw);
    match m
    case RequestVote(_, _, _, _) =>
    case RequestVoteReply(_, _, _) => OfficeKnown(h.(votes := h.votes + {m.voterId}), asked);
    case AppendEntries(_, _, prev, _, entries, _) => SpliceKnown(n.log, prev + 1, entries, asked);
    case AppendEntriesReply(_, _, _, _, _) =>
      AppendsKnown(h.(progress := h.progress.SetNext(from, Max(m.conflictIndex, 1))), asked);
    case InstallSnapshot(_, _, _, _, _) =>
    case InstallSnapshotReply(_, _) =>
  }

  lemma DrainKnown(n: Node, asked: set<Command>)
    requires NodeKnown(n, asked)
    ensures NodeKnown(TakeReady(n).0, asked)
    ensures OutboxKnown(TakeReady(n).1.messages, asked) && ItemsKnown(TakeReady(n).1.committed, asked)
  {
    hide CommandsIn;
    CommandsKnown(n.log, n.lastApplied, n.commitIndex, asked);
  }

  // ---- Runs ----------------------------------------------------------------

  /** The event is a proposal that its node accepts, because it leads. */
  predicate Proposal(c: Cluster, e: Event) {
    e.Proposes? && e.node in c.nodes && c.nodes[e.node].role.Leader?
  }

  /** The commands accepted in the first `i` events. */
  function Asked(r: Run, i: nat): set<Command>
    requires i <= |r.events| < |r.states|
  {
    if i == 0 then {}
    else Asked(r, i - 1) + if Proposal(r.states[i - 1], r.events[i - 1]) then {r.events[i - 1].command} else {}
  }

  lemma {:induction false} AskedMeansProposed(r: Run, i: nat, command: Command)
    requires i <= |r.events| < |r.states|
    ensures command in Asked(r, i) <==>
              exists k :: 0 <= k < i && Proposal(r.states[k], r.events[k]) && r.events[k].command == command
  {
    if i > 0 {
      AskedMeansProposed(r, i - 1, command);
    }
  }

  ghost predicate ClusterKnown(c: Cluster, asked: set<Command>) {
    && (forall v :: v in c.nodes ==> NodeKnown(c.nodes[v], asked))
    && (forall p :: p in c.net ==> MessageKnown(p.message, asked))
    && forall v :: v in c.delivered ==> ItemsKnown(c.delivered[v], asked)
  }

  lemma NodeStillKnown(n: Node, asked: set<Command>, more: set<Command>)
    requires NodeKnown(n, asked) && asked <= more
    ensures NodeKnown(n, more)
  {
  }

  lemma StillKnown(c: Cluster, asked: set<Command>, more: set<Command>)
    requires ClusterKnown(c, asked) && asked <= more
    ensures ClusterKnown(c, more)
  {
    forall v | v in c.nodes ensures NodeKnown(c.nodes[v], more) {
      NodeStillKnown(c.nodes[v], asked, more);
    }
  }

  lemma ActedKnown(c: Cluster, e: Event, asked: set<Command>)
    requires Enabled(c, e) && ClusterKnown(c, asked) && (Proposal(c, e) ==> e.command in asked)
    ensures NodeKnown(Acted(c.nodes[Actor(e)], e), asked)
  {
    hide Tick, Step, Propose, TakeReady, NodeKnown, MessageKnown, ItemsKnown;
    var n := c.nodes[Actor(e)];
    match e
    case Ticks(_, draw) => TickKnown(n, draw, asked);
    case Delivers(p, draw) => StepKnown(n, p.from, p.message, draw, asked);
    case Proposes(_, command) => ProposeKnown(n, command, asked);
    case Drains(_, _) => DrainKnown(n, asked);
  }

  lemma PostedKnown(v: NodeId, messages: seq<Envelope>, data: seq<KeyValue>, p: Packet, asked: set<Command>)
    requires OutboxKnown(messages, asked) && p in Posted(v, messages, data)
    ensures MessageKnown(p.message, asked)
  {
    var e :| e in messages && p == Packet(v, e.to, Filled(e.message, data));
    assert MessageKnown(e.message, asked);
  }

  lemma AfterKnown(c: Cluster, e: Event, asked: set<Command>)
    requires Enabled(c, e) && ClusterKnown(c, asked) && (Proposal(c, e) ==> e.command in asked)
    ensures ClusterKnown(After(c, e), asked)
  {
    hide Acted, TakeReady, NodeKnown, MessageKnown, ItemsKnown, Posted, OutboxKnown;
    var v, d := Actor(e), After(c, e);
    ActedKnown(c, e, asked);
    if e.Drains? {
      var ready := TakeReady(c.nodes[v]).1;
      DrainKnown(c.nodes[v], asked);
      forall p | p in d.net ensures MessageKnown(p.message, asked) {
        if p !in c.net {
          PostedKnown(v, ready.messages, e.data, p, asked);
        }
      }
      ItemsJoin(c.delivered[v], ready.committed, asked);
    }
  }

  lemma ItemsJoin(a: seq<Committed>, b: seq<Committed>, asked: set<Command>)
    requires ItemsKnown(a, asked) && ItemsKnown(b, asked)
    ensures ItemsKnown(a + b, asked)
  {
  }

  lemma {:induction false} RunKnown(r: Run, i: nat)
    requires IsRun(r) && i < |r.states|
    ensures ClusterKnown(r.states[i], Asked(r, i))
    decreases i
  {
    hide ClusterKnown, After, Enabled, Initial;
    if i == 0 {
      InitialKnown(r.states[0]);
    } else {
      RunKnown(r, i - 1);
      StillKnown(r.states[i - 1], Asked(r, i - 1), Asked(r, i));
      AfterKnown(r.states[i - 1], r.events[i - 1], Asked(r, i));
    }
  }

  lemma InitialKnown(c: Cluster)
    requires Initial(c)
    ensures ClusterKnown(c, {})
  {
  }

  /** Validity: in every run, every command a node has handed to its state machine was the argument of an
      earlier proposal, to a node that led at the time. */
  lemma AppliedWasProposed(r: Run, i: nat, v: NodeId, c: Committed)
    requires IsRun(r) && i < |r.states| && v in r.states[i].delivered && c in r.states[i].delivered[v] && c.Command?
    ensures exists k :: 0 <= k < i && Proposal(r.states[k], r.events[k]) && r.events[k].command == c.command
  {
    hide Initial, After, Enabled, NodeKnown, MessageKnown;
    RunKnown(r, i);
    AskedMeansProposed(r, i, c.command);
  }
}
