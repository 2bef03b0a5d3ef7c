/** Whether a client that is told "committed" was told the truth (src/server.rs). */
module Waiting {
  import opened Basics
  import opened Messages
  import opened Logs
  import opened Nodes
  import opened Emission
  import opened Stores
  import opened Drivers

  /** If the node is still to apply `index`, then it will apply `command`. */
  predicate Holds(n: Node, index: nat, command: Command) {
    index > n.lastApplied ==> n.log.Get(index).Some? && n.log.Get(index).value.command == command
  }

  predicate AllHeld(n: Node, waiters: Waiters) {
    forall i, w :: i in waiters && w in waiters[i] ==> Holds(n, i, w.command)
  }

  /** Between two rounds: everything committed is applied and handed out, only a leader has waiters, and
      whoever waits for an index that is still to be applied waits for its own command. */
  predicate Settled(d: Driver) {
    && d.node.commitIndex <= d.node.lastApplied && d.node.committed == [] && d.node.outgoing == []
    && (d.waiters != map[] ==> d.node.role.Leader?)
    && AllHeld(d.node, d.waiters)
  }

  // ---- What a drain does to the waiters ------------------------------------

  lemma {:induction false} ServedFor(codec: CommandCodec, s: Store, waiters: Waiters, items: seq<Committed>, w: Waiter)
    returns (c: Committed)
    requires w in DeliverAll(codec, s, waiters, items).served
    ensures c in items && c.Command? && w in WaitersAt(waiters, c.index)
    decreases |items|
  {
    var last := |items| - 1;
    var v := DeliverAll(codec, s, waiters, items[..last]);
    if w in v.served {
      c := ServedFor(codec, s, waiters, items[..last], w);
    } else {
      c := items[last];
      StillWaiting(codec, s, waiters, items[..last], c.index);
    }
  }

  /** A waiter stays exactly when its index is not among the items. */
  lemma {:induction false} StillWaiting(codec: CommandCodec, s: Store, waiters: Waiters, items: seq<Committed>, i: nat)
    ensures var v := DeliverAll(codec, s, waiters, items);
            && (i in v.waiters <==> i in waiters && forall c :: c in items && c.Command? ==> c.index != i)
            && (i in v.waiters ==> v.waiters[i] == waiters[i])
    decreases |items|
  {
    if items != [] {
      var last := |items| - 1;
      StillWaiting(codec, s, waiters, items[..last], i);
      assert items == items[..last] + [items[last]];
      assert forall c :: c in items <==> c in items[..last] || c == items[last];
    }
  }

  /** After a drain the remaining waiters wait for entries that are not applied. */
  lemma DrainSettles(codec: CommandCodec, n: Node, s: Store, waiters: Waiters)
    requires AllHeld(n, waiters)
    ensures var (m, ready) := TakeReady(n);
            AllHeld(m, DeliverAll(codec, s, waiters, ready.committed).waiters)
  {
    hide CommandsIn, DeliverAll;
    var (m, ready) := TakeReady(n);
    var left := DeliverAll(codec, s, waiters, ready.committed).waiters;
    forall i: nat, w: Waiter | i in left && w in left[i] ensures Holds(m, i, w.command) {
      StillWaiting(codec, s, waiters, ready.committed, i);
      assert Holds(n, i, w.command);
    }
  }

  // ---- A leader only ever extends its log ----------------------------------

  lemma LeaderSteps(n: Node, from: NodeId, m: Message, draw: nat)
    requires n.role.Leader? && Step(n, from, m, draw).role.Leader?
    ensures var s := Step(n, from, m, draw);
            s.log == n.log && s.lastApplied == n.lastApplied && s.committed == n.committed
  {
    hide BecomeLeader, CommitPoint, Log.Matches, Log.Splice, UpToDate, AppendFor;
  }

  lemma LeaderTicks(n: Node, draw: nat)
    requires n.role.Leader?
    ensures var s := Tick(n, draw); s.log == n.log && s.lastApplied == n.lastApplied && s.committed == n.committed
  {
    hide BecomeCandidate;
  }

  lemma LeaderProposes(n: Node, command: Command)
    requires n.role.Leader?
    ensures var (s, p) := Propose(n, command);
            && s.log == n.log.Append([LogEntry(n.currentTerm, command)]) && s.lastApplied == n.lastApplied
            && p == Accepted(n.log.LastIndex() + 1) && s.committed == n.committed
  {
    hide CommitPoint, Appends;
  }

  lemma ExtendedHolds(n: Node, m: Node, entry: LogEntry, i: nat, command: Command)
    requires Holds(n, i, command) && m.lastApplied == n.lastApplied && m.log == n.log.Append([entry])
    ensures Holds(m, i, command)
  {
  }

  lemma ProposalHeld(codec: CommandCodec, d: Driver, c: WriteCommand, id: nat)
    requires Faithful(codec) && Settled(d) && d.node.role.Leader?
    ensures var h := Handle(codec, d, Write(c, id)).driver; AllHeld(h.node, h.waiters) && h.node.committed == []
  {
    hide Propose;
    var w := Waiter(id, codec.encode(c));
    LeaderProposes(d.node, w.command);
    var h := Handle(codec, d, Write(c, id)).driver;
    forall i: nat, x: Waiter | i in h.waiters && x in h.waiters[i] ensures Holds(h.node, i, x.command) {
      if i in d.waiters && x in d.waiters[i] {
        ExtendedHolds(d.node, h.node, LogEntry(d.node.currentTerm, w.command), i, x.command);
      } else {
        assert i == d.node.log.LastIndex() + 1 && x == w;
      }
    }
  }

  /** A node that still leads after the event holds what its waiters proposed. */
  lemma HandleHolds(codec: CommandCodec, d: Driver, r: Request)
    requires Faithful(codec) && Settled(d)
    ensures var h := Handle(codec, d, r).driver;
            && (h.node.role.Leader? ==> AllHeld(h.node, h.waiters))
            && (d.node.role.Leader? && h.node.role.Leader? ==> h.node.committed == [])
            && (h.waiters != map[] ==> d.node.role.Leader?)
  {
    hide Tick, Step, Propose, Faithful;
    match r
    case Ticked(draw) =>
      if d.node.role.Leader? {
        LeaderTicks(d.node, draw);
      }
    case Peer(from, m, draw) =>
      if d.node.role.Leader? && Step(d.node, from, m, draw).role.Leader? {
        LeaderSteps(d.node, from, m, draw);
      }
    case Write(c, id) =>
      if d.node.role.Leader? {
        ProposalHeld(codec, d, c, id);
      } else {
        FollowerRefuses(d.node, codec.encode(c));
      }
    case Status =>
  }

  lemma FollowerRefuses(n: Node, command: Command)
    requires !n.role.Leader?
    ensures Propose(n, command) == (n, NotLeader(n.leaderId))
  {
  }

  /** Truthful answers: a node that still leads after the event tells a client "committed" only for the
      command that client proposed, at the index it was given. */
  lemma TruthfulRound(codec: CommandCodec, d: Driver, r: Request, w: Waiter)
    requires Faithful(codec) && Settled(d)
    requires var h := Handle(codec, d, r).driver;
             h.node.role.Leader? && w in DeliverAll(codec, h.store, h.waiters, TakeReady(h.node).1.committed).served
    ensures var h := Handle(codec, d, r).driver;
            exists i :: w in WaitersAt(h.waiters, i) && Committed.Command(i, w.command) in TakeReady(h.node).1.committed
  {
    hide Handle, DeliverAll, CommandsIn;
    var h := Handle(codec, d, r).driver;
    var items := TakeReady(h.node).1.committed;
    HandleHolds(codec, d, r);
    var c := ServedFor(codec, h.store, h.waiters, items, w);
    assert h.node.committed == [] && items == CommandsIn(h.node.log, h.node.lastApplied, h.node.commitIndex);
    CommandsAt(h.node.log, h.node.lastApplied, h.node.commitIndex, c);
    assert Holds(h.node, c.index, w.command);
    assert c == Committed.Command(c.index, w.command);
  }

  /** Every round leaves the driver settled. */
  lemma RoundSettles(codec: CommandCodec, d: Driver, r: Request, data: seq<KeyValue>)
    requires Faithful(codec) && Settled(d)
    ensures Settled(Iterate(codec, d, r, data).driver)
  {
    hide Handle, DeliverAll, FillAll, AllHeld, Faithful;
    var h := Handle(codec, d, r).driver;
    HandleHolds(codec, d, r);
    var n := TakeReady(h.node).0;
    NobodyHeld(n);
    TakenReady(h.node);
    if h.node.role.Leader? {
      DrainSettles(codec, h.node, h.store, h.waiters);
    }
  }

  lemma TakenReady(n: Node)
    ensures var m := TakeReady(n).0;
            && m.role == n.role && m.commitIndex <= m.lastApplied && m.committed == [] && m.outgoing == []
  {
  }

  lemma NobodyHeld(n: Node)
    ensures AllHeld(n, map[])
  {
  }

  lemma {:induction false} RunSettles(codec: CommandCodec, d: Driver, rounds: seq<Round>)
    requires Faithful(codec) && Settled(d)
    ensures Settled(Drive(codec, d, rounds))
    decreases |rounds|
  {
    hide Settled, Iterate, Faithful;
    if rounds != [] {
      var last := |rounds| - 1;
      RunSettles(codec, d, rounds[..last]);
      RoundSettles(codec, Drive(codec, d, rounds[..last]), rounds[last].request, rounds[last].data);
    }
  }

  /** Truthful answers over every run of a driver, whatever messages arrive. */
  lemma TruthfulRun(codec: CommandCodec, start: Driver, rounds: seq<Round>, r: Request, w: Waiter)
    requires Faithful(codec)
    requires start == NewDriver(start.node.id, start.node.peers, start.node.config, start.node.electionTimeout)
    ensures var h := Handle(codec, Drive(codec, start, rounds), r).driver;
            var items := TakeReady(h.node).1.committed;
            h.node.role.Leader? && w in DeliverAll(codec, h.store, h.waiters, items).served ==>
              exists i :: w in WaitersAt(h.waiters, i) && Committed.Command(i, w.command) in items
  {
    hide Drive, Handle, TakeReady, DeliverAll, Faithful;
    var d := Drive(codec, start, rounds);
    RunSettles(codec, start, rounds);
    var h := Handle(codec, d, r).driver;
    if h.node.role.Leader? && w in DeliverAll(codec, h.store, h.waiters, TakeReady(h.node).1.committed).served {
      TruthfulRound(codec, d, r, w);
    }
  }
}
