/** No client is left behind: whoever still waits after a round waits for an entry that is not applied yet. */
module Anchors {
  import opened Basics
  import opened Messages
  import opened Logs
  import opened Nodes
  import opened Emission
  import opened Stores
  import opened Drivers
  import opened Waiting
  import LeaderChain

  /** The entry at `i` is not applied yet and holds `command`. */
  predicate Awaited(n: Node, i: nat, command: Command) {
    i > n.lastApplied && n.log.Get(i).Some? && n.log.Get(i).value.command == command != []
  }

  /** Every waiter waits for an entry of the log that is not applied yet and holds its command. */
  predicate Pinned(n: Node, waiters: Waiters) {
    forall i, w :: i in waiters && w in waiters[i] ==> Awaited(n, i, w.command)
  }

  /** A settled driver whose node, while it leads, has its indices in order and all its waiters pinned. */
  predicate Anchored(d: Driver) {
    Settled(d) && (d.node.role.Leader? ==> LeaderChain.Chain(d.node) && Pinned(d.node, d.waiters))
  }

  /** The event makes the node a leader. */
  predicate Elects(codec: CommandCodec, d: Driver, r: Request) {
    !d.node.role.Leader? && Handle(codec, d, r).driver.node.role.Leader?
  }

  lemma SameLogPins(n: Node, m: Node, waiters: Waiters)
    requires Pinned(n, waiters) && m.log == n.log && m.lastApplied == n.lastApplied
    ensures Pinned(m, waiters)
  {
  }

  lemma ProposalPins(codec: CommandCodec, d: Driver, c: WriteCommand, id: nat)
    requires Faithful(codec) && Anchored(d) && d.node.role.Leader?
    ensures var h := Handle(codec, d, Write(c, id)).driver;
            LeaderChain.Chain(h.node) && Pinned(h.node, h.waiters)
  {
    hide Propose, Settled;
    var w := Waiter(id, codec.encode(c));
    LeaderProposes(d.node, w.command);
    LeaderChain.ProposeChain(d.node, w.command);
    var h := Handle(codec, d, Write(c, id)).driver;
    forall i: nat, x: Waiter | i in h.waiters && x in h.waiters[i]
      ensures Awaited(h.node, i, x.command)
    {
      if i in d.waiters && x in d.waiters[i] {
        assert Awaited(d.node, i, x.command);
      } else {
        assert i == d.node.log.LastIndex() + 1 && x == w;
      }
    }
  }

  /** The event keeps a leader's waiters pinned. */
  lemma HandlePins(codec: CommandCodec, d: Driver, r: Request)
    requires Faithful(codec) && Anchored(d) && d.node.role.Leader? && Handle(codec, d, r).driver.node.role.Leader?
    ensures var h := Handle(codec, d, r).driver; LeaderChain.Chain(h.node) && Pinned(h.node, h.waiters)
  {
    hide Tick, Step, Propose, Faithful, Settled, Pinned, LeaderChain.Chain;
    match r
    case Ticked(draw) =>
      LeaderTicks(d.node, draw);
      LeaderChain.TickChain(d.node, draw);
      SameLogPins(d.node, Tick(d.node, draw), d.waiters);
    case Peer(from, m, draw) =>
      LeaderSteps(d.node, from, m, draw);
      LeaderChain.StepChain(d.node, from, m, draw);
      SameLogPins(d.node, Step(d.node, from, m, draw), d.waiters);
    case Write(c, id) => ProposalPins(codec, d, c, id);
    case Status =>
  }

  /** A drain answers everybody up to the commit index and keeps the others' entries. */
  lemma DrainPins(codec: CommandCodec, n: Node, s: Store, waiters: Waiters)
    requires LeaderChain.Chain(n) && Pinned(n, waiters) && n.committed == []
    ensures var (m, ready) := TakeReady(n);
            LeaderChain.Chain(m) && Pinned(m, DeliverAll(codec, s, waiters, ready.committed).waiters)
  {
    hide CommandsIn, DeliverAll;
    var (m, ready) := TakeReady(n);
    var left := DeliverAll(codec, s, waiters, ready.committed).waiters;
    LeaderChain.DrainChain(n);
    forall i: nat, w: Waiter | i in left && w in left[i]
      ensures Awaited(m, i, w.command)
    {
      StillWaiting(codec, s, waiters, ready.committed, i);
      assert Awaited(n, i, w.command);
      if i <= n.commitIndex {
        CommandsAll(n.log, n.lastApplied, n.commitIndex, i);
      }
    }
  }

  lemma NobodyPinned(n: Node)
    ensures Pinned(n, map[])
  {
  }

  /** Every round keeps the driver anchored, provided a newly elected node has its indices in order. */
  lemma RoundAnchors(codec: CommandCodec, d: Driver, r: Request, data: seq<KeyValue>)
    requires Faithful(codec) && Anchored(d)
    requires Elects(codec, d, r) ==> LeaderChain.Chain(Handle(codec, d, r).driver.node)
    ensures Anchored(Iterate(codec, d, r, data).driver)
  {
    hide Handle, TakeReady, DeliverAll, FillAll, Settled, Faithful, Pinned, LeaderChain.Chain, Pending;
    var h := Handle(codec, d, r).driver;
    RoundSettles(codec, d, r, data);
    TakenReady(h.node);
    if h.node.role.Leader? {
      if d.node.role.Leader? {
        HandlePins(codec, d, r);
      } else {
        NobodyYet(codec, d, r);
        NobodyPinned(h.node);
      }
      QuietHandle(codec, d, r);
      DrainPins(codec, h.node, h.store, h.waiters);
    }
  }

  lemma NobodyYet(codec: CommandCodec, d: Driver, r: Request)
    requires Faithful(codec) && Settled(d) && !d.node.role.Leader?
    ensures Handle(codec, d, r).driver.waiters == map[]
  {
    hide Handle, AllHeld, Faithful;
    HandleHolds(codec, d, r);
  }

  lemma QuietHandle(codec: CommandCodec, d: Driver, r: Request)
    requires Settled(d) && Handle(codec, d, r).driver.node.role.Leader?
    ensures Handle(codec, d, r).driver.node.committed == []
  {
    hide Tick, Step, Propose, AllHeld;
    match r
    case Ticked(draw) => TickSilent(d.node, draw);
    case Peer(from, m, draw) => LeaderQuiet(d.node, from, m, draw);
    case Write(c, id) => ProposeSilent(d.node, codec.encode(c));
    case Status =>
  }

  lemma LeaderQuiet(n: Node, from: NodeId, m: Message, draw: nat)
    requires Step(n, from, m, draw).role.Leader?
    ensures Step(n, from, m, draw).committed == n.committed
  {
    hide CommitPoint, Log.Matches, Log.Splice, UpToDate, AppendFor;
  }

  /** No client is left behind, over every run of a driver in which each newly elected node has its
      indices in order. */
  lemma {:induction false} RunAnchors(codec: CommandCodec, start: Driver, rounds: seq<Round>)
    requires Faithful(codec) && Anchored(start)
    requires forall k :: 0 <= k < |rounds| && Elects(codec, Drive(codec, start, rounds[..k]), rounds[k].request) ==>
               LeaderChain.Chain(Handle(codec, Drive(codec, start, rounds[..k]), rounds[k].request).driver.node)
    ensures Anchored(Drive(codec, start, rounds))
    decreases |rounds|
  {
    hide Anchored, Iterate, Faithful, Elects, LeaderChain.Chain, Handle;
    if rounds != [] {
      var last := |rounds| - 1;
      var rest := rounds[..last];
      forall k | 0 <= k < |rest| && Elects(codec, Drive(codec, start, rest[..k]), rest[k].request)
        ensures LeaderChain.Chain(Handle(codec, Drive(codec, start, rest[..k]), rest[k].request).driver.node)
      {
        assert rest[..k] == rounds[..k] && rest[k] == rounds[k];
      }
      RunAnchors(codec, start, rest);
      RoundAnchors(codec, Drive(codec, start, rest), rounds[last].request, rounds[last].data);
    }
  }
}
