/**
 * Drivers that ship snapshots to each other (src/server.rs). A snapshot is filled
 * with the sender's store of the moment, which may be newer than the index the
 * snapshot claims; the stores converge all the same.
 */
module Shipping {
  import opened Basics
  import opened Messages
  import opened Logs
  import opened Nodes
  import opened Stores
  import opened Drivers

  // ---- A shipped snapshot claims no more than its sender applied ------------

  /** Every snapshot among the messages claims exactly `index`. */
  predicate Claims(out: seq<Envelope>, index: nat) {
    forall k :: 0 <= k < |out| && out[k].message.InstallSnapshot? ==> out[k].message.lastIncludedIndex == index
  }

  /** The messages queued in one step, and the snapshot point and applied index it leaves. */
  predicate Steady(n: Node, m: Node) {
    && m.log.snapshotIndex == n.log.snapshotIndex && m.lastApplied == n.lastApplied && m.committed == n.committed
    && (Claims(n.outgoing, n.log.snapshotIndex) ==> Claims(m.outgoing, n.log.snapshotIndex))
  }

  lemma AdvanceSteady(n: Node)
    ensures Steady(n, AdvanceCommit(n))
  {
    hide CommitPoint;
  }

  lemma BroadcastSteady(n: Node)
    ensures Steady(n, BroadcastAppend(n))
  {
    assert forall k :: 0 <= k < |Appends(n)| && Appends(n)[k].message.InstallSnapshot? ==>
             Appends(n)[k].message.lastIncludedIndex == n.log.snapshotIndex;
  }

  lemma LeaderSteady(n: Node)
    ensures Steady(n, BecomeLeader(n))
  {
    hide AdvanceCommit, BroadcastAppend, Claims;
    var o := TakeOffice(n);
    BroadcastSteady(o);
    AdvanceSteady(BroadcastAppend(o));
  }

  lemma TickSteady(n: Node, draw: nat)
    ensures Steady(n, Tick(n, draw))
  {
    hide BecomeLeader, BroadcastAppend;
    var c := StandForElection(n.(electionElapsed := n.electionElapsed + 1), draw);
    BroadcastSteady(n.(heartbeatElapsed := 0));
    LeaderSteady(c);
    forall k | 0 <= k < |VoteRequests(c)| ensures VoteRequests(c)[k].message.RequestVote? {
      assert VoteRequests(c)[k] == Envelope(c.peers[k], VoteRequest(c));
    }
  }

  lemma ProposeSteady(n: Node, command: Command)
    ensures Steady(n, Propose(n, command).0)
  {
    hide AdvanceCommit, BroadcastAppend;
    var m := n.(log := n.log.Append([LogEntry(n.currentTerm, command)]));
    BroadcastSteady(m);
    AdvanceSteady(BroadcastAppend(m));
  }

  lemma ReplySteady(n: Node, from: NodeId, m: Message)
    requires m.AppendEntriesReply? || m.RequestVoteReply?
    ensures m.AppendEntriesReply? ==> Steady(n, HandleAppendEntriesReply(n, from, m))
    ensures m.RequestVoteReply? ==> Steady(n, HandleRequestVoteReply(n, m))
  {
    hide AdvanceCommit, BecomeLeader;
    if m.AppendEntriesReply? {
      AdvanceSteady(n.(progress := n.progress.SetMatch(from, m.matchIndex).SetNext(from, m.matchIndex + 1)));
    } else {
      LeaderSteady(n.(votes := n.votes + {m.voterId}));
    }
  }

  /** The message is a snapshot and gets installed. */
  predicate Installs(n: Node, m: Message) {
    m.InstallSnapshot? && m.term >= n.currentTerm
  }

  lemma StepSteady(n: Node, from: NodeId, m: Message, draw: nat)
    requires !Installs(n, m)
    ensures Steady(n, Step(n, from, m, draw))
  {
    hide HandleAppendEntriesReply, HandleRequestVoteReply, Log.SpliceAt, Log.Matches, UpToDate;
    var h := Heed(n, m.term, draw);
    match m
    case RequestVote(_, _, _, _) =>
    case RequestVoteReply(_, _, _) => ReplySteady(h, from, m);
    case AppendEntries(_, _, prev, _, entries, _) => SpliceKeepsSnapshot(h.log, prev + 1, entries);
    case AppendEntriesReply(_, _, _, _, _) => ReplySteady(h, from, m);
    case InstallSnapshot(_, _, _, _, _) =>
    case InstallSnapshotReply(_, _) =>
  }

  // ---- One round against the committed ledger ------------------------------

  /** What the log contributes to the ledger at `index`. */
  function EntryAt(codec: CommandCodec, log: Log, index: nat): Option<WriteCommand> {
    match log.Get(index)
    case Some(e) => if e.command == [] then None else codec.decode(e.command)
    case None => None
  }

  /** What the node is about to apply is what the ledger says. */
  predicate FollowsLedger(codec: CommandCodec, n: Node, l: Ledger) {
    n.commitIndex <= |l| && forall i :: n.lastApplied < i <= n.commitIndex ==> EntryAt(codec, n.log, i) == l[i - 1]
  }

  lemma {:induction false} DeliverSplit(codec: CommandCodec, s: Store, waiters: Waiters,
                                        a: seq<Committed>, b: seq<Committed>)
    ensures DeliverAll(codec, s, waiters, a + b).store ==
              DeliverAll(codec, DeliverAll(codec, s, waiters, a).store, waiters, b).store
    decreases |b|
  {
    if b == [] {
      assert a + b == a;
    } else {
      var last := |b| - 1;
      assert (a + b)[..|a + b| - 1] == a + b[..last];
      DeliverSplit(codec, s, waiters, a, b[..last]);
    }
  }

  /** Draining applies the ledger's entries one by one. */
  lemma {:induction false} DrainApplies(codec: CommandCodec, s: Store, waiters: Waiters,
                                        log: Log, l: Ledger, a: nat, b: nat)
    requires a <= b <= |l| && forall i :: a < i <= b ==> EntryAt(codec, log, i) == l[i - 1]
    ensures DeliverAll(codec, s, waiters, CommandsIn(log, a, b)).store == ApplyAll(s, l[a..b])
  {
    hide DeliverOne, CommandAt, EntryAt, Effect;
    if a < b {
      hide DeliverAll, ApplyAll;
      DrainApplies(codec, s, waiters, log, l, a, b - 1);
      DeliverSplit(codec, s, waiters, CommandsIn(log, a, b - 1), CommandAt(log, b));
      ApplyOne(s, l, a, b);
      assert EntryAt(codec, log, b) == l[b - 1];
      DeliverCommand(codec, ApplyAll(s, l[a..b - 1]), waiters, log, b);
    }
  }

  lemma ApplyOne(s: Store, l: Ledger, a: nat, b: nat)
    requires a < b <= |l|
    ensures ApplyAll(s, l[a..b]) == Effect(l[b - 1], ApplyAll(s, l[a..b - 1]))
  {
    assert l[a..b][..b - a - 1] == l[a..b - 1];
  }

  lemma DeliverCommand(codec: CommandCodec, s: Store, waiters: Waiters, log: Log, i: nat)
    ensures DeliverAll(codec, s, waiters, CommandAt(log, i)).store == Effect(EntryAt(codec, log, i), s)
  {
    if CommandAt(log, i) != [] {
      assert CommandAt(log, i)[..0] == [];
    }
  }

  /** The driver's store came about as `o` tells, and its node has applied just that far. */
  predicate At(d: Driver, o: Origin, l: Ledger) {
    && Plausible(o, l) && Position(o) == d.node.lastApplied && d.store == StoreOf(o, l)
    && d.node.log.snapshotIndex <= d.node.lastApplied && d.node.committed == [] && d.node.outgoing == []
  }

  predicate InstallRequest(d: Driver, r: Request) {
    r.Peer? && Installs(d.node, r.message)
  }

  lemma HandleSteady(codec: CommandCodec, d: Driver, r: Request)
    requires !InstallRequest(d, r)
    ensures var h := Handle(codec, d, r).driver; Steady(d.node, h.node) && h.store == d.store
  {
    hide Tick, Step, Propose, Claims;
    match r
    case Ticked(draw) => TickSteady(d.node, draw);
    case Peer(from, m, draw) => StepSteady(d.node, from, m, draw);
    case Write(c, id) => ProposeSteady(d.node, codec.encode(c));
    case Status =>
  }

  /** A drain ends with everything committed applied, and compacts no further than that. */
  lemma DrainEnds(n: Node)
    requires n.log.snapshotIndex <= n.lastApplied
    ensures var (m, ready) := TakeReady(n);
            && m.log.snapshotIndex <= m.lastApplied == Max(n.lastApplied, n.commitIndex)
            && m.committed == [] && m.outgoing == [] && ready.messages == n.outgoing
            && ready.committed == n.committed + CommandsIn(n.log, n.lastApplied, n.commitIndex)
  {
    hide CommandsIn;
  }

  lemma {:induction false} PositionBound(o: Origin, l: Ledger)
    requires Plausible(o, l)
    ensures Position(o) <= |l|
  {
    match o
    case Fresh =>
    case Applied(_, _) =>
    case Restored(s, _) => PositionBound(s, l);
  }

  /** Draining moves the origin on to the commit index. */
  lemma DrainTracks(codec: CommandCodec, h: Driver, o: Origin, l: Ledger)
    requires Plausible(o, l) && Position(o) == h.node.lastApplied && h.store == StoreOf(o, l)
    requires FollowsLedger(codec, h.node, l)
    ensures var n, k := h.node, Max(h.node.lastApplied, h.node.commitIndex);
            && Plausible(Applied(o, k), l)
            && DeliverAll(codec, h.store, h.waiters, CommandsIn(n.log, n.lastApplied, n.commitIndex)).store ==
                 StoreOf(Applied(o, k), l)
  {
    hide DeliverAll, CommandsIn, ApplyAll, EntryAt;
    var n := h.node;
    PositionBound(o, l);
    if n.commitIndex >= n.lastApplied {
      DrainApplies(codec, h.store, h.waiters, n.log, l, n.lastApplied, n.commitIndex);
    } else {
      NothingDrained(codec, h.store, h.waiters, n.log, n.lastApplied, n.commitIndex);
      assert l[n.lastApplied..n.lastApplied] == [];
      NothingApplied(h.store);
    }
  }

  lemma NothingApplied(s: Store)
    ensures ApplyAll(s, []) == s
  {
  }

  lemma NothingDrained(codec: CommandCodec, s: Store, waiters: Waiters, log: Log, a: nat, b: nat)
    requires b <= a
    ensures DeliverAll(codec, s, waiters, CommandsIn(log, a, b)).store == s
  {
  }

  /** A round that installs no snapshot applies the ledger from where the driver was. */
  lemma RoundTracks(codec: CommandCodec, d: Driver, r: Request, data: seq<KeyValue>, o: Origin, l: Ledger)
    requires At(d, o, l) && !InstallRequest(d, r) && FollowsLedger(codec, Handle(codec, d, r).driver.node, l)
    ensures var k := Max(d.node.lastApplied, Handle(codec, d, r).driver.node.commitIndex);
            At(Iterate(codec, d, r, data).driver, Applied(o, k), l)
  {
    hide Handle, TakeReady, DeliverAll, FillAll, CommandsIn, FollowsLedger, Plausible, StoreOf, Claims;
    var h := Handle(codec, d, r).driver;
    HandleSteady(codec, d, r);
    DrainEnds(h.node);
    DrainTracks(codec, h, o, l);
    assert TakeReady(h.node).1.committed == CommandsIn(h.node.log, h.node.lastApplied, h.node.commitIndex);
  }

  /** A round that installs a snapshot restores the sender's store under the index it claims. */
  lemma RoundRestores(codec: CommandCodec, d: Driver, r: Request, data: seq<KeyValue>, sender: Origin, l: Ledger)
    requires InstallRequest(d, r) && d.node.committed == []
    requires Plausible(sender, l) && r.message.lastIncludedIndex <= Position(sender)
    requires Lists(r.message.data, StoreOf(sender, l))
    ensures At(Iterate(codec, d, r, data).driver, Restored(sender, r.message.lastIncludedIndex), l)
  {
    hide TakeReady, FillAll, CommandsIn, Lists, FromPairs, Log.Get;
    var h := Handle(codec, d, r).driver;
    DrainEnds(h.node);
    RestoreListing(r.message.data, StoreOf(sender, l));
    NoCommands(h.node.log, h.node.lastApplied, h.node.commitIndex);
    var items := TakeReady(h.node).1.committed;
    assert items == [Snapshot(r.message.data)];
    assert items[..0] == [];
  }

  lemma NoCommands(log: Log, a: nat, b: nat)
    requires b <= a
    ensures CommandsIn(log, a, b) == []
  {
  }

  /** Whatever a round sends, a snapshot in it claims no more than the store it carries has applied. */
  lemma ShippedClaims(codec: CommandCodec, d: Driver, r: Request, data: seq<KeyValue>, e: Envelope)
    requires d.node.log.snapshotIndex <= d.node.lastApplied && d.node.outgoing == []
    requires e in Iterate(codec, d, r, data).sent && e.message.InstallSnapshot?
    ensures e.message.lastIncludedIndex <= d.node.lastApplied && e.message.data == data
  {
    hide Handle, TakeReady, DeliverAll;
    var h := Handle(codec, d, r).driver;
    assert Iterate(codec, d, r, data).sent == FillAll(TakeReady(h.node).1.messages, data);
    DrainSends(h.node);
    var k :| 0 <= k < |h.node.outgoing| && e == FillAll(h.node.outgoing, data)[k];
    if InstallRequest(d, r) {
      InstallShipsNothing(codec, d, r);
    } else {
      HandleSteady(codec, d, r);
    }
  }

  lemma InstallShipsNothing(codec: CommandCodec, d: Driver, r: Request)
    requires InstallRequest(d, r) && d.node.outgoing == []
    ensures forall e :: e in Handle(codec, d, r).driver.node.outgoing ==> !e.message.InstallSnapshot?
  {
  }
}
