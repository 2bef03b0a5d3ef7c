/** A cluster of one: with no peers and no inbound messages the driver is exact. */
module Solo {
  import opened Basics
  import opened Messages
  import opened Logs
  import opened Nodes
  import opened Stores
  import opened Drivers

  /** The node has no peers and has committed and applied its whole log. */
  ghost predicate Alone(n: Node) {
    && n.peers == [] && !n.role.Candidate?
    && n.log.snapshotIndex <= n.lastApplied == n.commitIndex == n.log.LastIndex()
    && n.committed == [] && n.outgoing == []
  }

  lemma Elected(n: Node)
    requires n.peers == [] && n.commitIndex == n.log.LastIndex() && n.outgoing == []
    ensures BecomeLeader(n) == TakeOffice(n)
  {
    assert Appends(TakeOffice(n)) == [];
  }

  /** Ticks change neither the log nor what is applied: an election is won on the spot. */
  lemma AloneTicks(n: Node, draw: nat)
    requires Alone(n)
    ensures Alone(Tick(n, draw)) && Tick(n, draw).log == n.log
  {
    hide BecomeLeader;
    var c := StandForElection(n.(electionElapsed := n.electionElapsed + 1), draw);
    Elected(c);
    assert |c.votes| == 1 && MajoritySize(c) == 1;
    assert Appends(n.(heartbeatElapsed := 0)) == [];
  }

  /** A proposal is committed at once. */
  lemma AloneProposes(n: Node, command: Command)
    requires Alone(n) && n.role.Leader?
    ensures var (m, p) := Propose(n, command);
            && p == Accepted(n.log.LastIndex() + 1)
            && m == n.(log := n.log.Append([LogEntry(n.currentTerm, command)]), commitIndex := n.log.LastIndex() + 1)
  {
    hide Log.Get;
    var m := n.(log := n.log.Append([LogEntry(n.currentTerm, command)]));
    assert Appends(m) == [];
    assert BroadcastAppend(m) == m;
    NewestTerm(n.log, LogEntry(n.currentTerm, command));
    assert MajoritySize(m) == 1;
    assert Committable(m, m.log.LastIndex());
  }

  lemma NewestTerm(log: Log, entry: LogEntry)
    ensures var more := log.Append([entry]);
            && more.LastIndex() == log.LastIndex() + 1 && more.TermAt(more.LastIndex()) == Some(entry.term)
            && more.Get(more.LastIndex()) == Some(entry)
  {
  }

  /** Draining after a proposal emits just that command, and compaction loses nothing. */
  lemma AloneDrains(n: Node, m: Node, entry: LogEntry)
    requires Alone(n) && entry.command != []
    requires m == n.(log := n.log.Append([entry]), commitIndex := n.log.LastIndex() + 1)
    ensures var (k, ready) := TakeReady(m);
            && Alone(k) && k.role == n.role
            && ready == Ready([], [Committed.Command(n.log.LastIndex() + 1, entry.command)])
  {
    hide Log.Get, CommandsIn;
    NewestTerm(n.log, entry);
    var last := m.commitIndex;
    assert CommandsIn(m.log, n.lastApplied, last) == [Committed.Command(last, entry.command)] by {
      OneCommand(m.log, last, entry);
    }
    CompactedEnd(m.(lastApplied := last));
  }

  lemma OneCommand(log: Log, last: nat, entry: LogEntry)
    requires last > 0 && log.Get(last) == Some(entry) && entry.command != []
    ensures CommandsIn(log, last - 1, last) == [Committed.Command(last, entry.command)]
  {
    assert CommandsIn(log, last - 1, last - 1) == [];
  }

  lemma CompactedEnd(n: Node)
    requires n.log.snapshotIndex <= n.lastApplied == n.log.LastIndex()
    ensures var c := MaybeCompact(n);
            && c == n.(log := c.log) && c.log.LastIndex() == n.log.LastIndex() && c.log.snapshotIndex <= n.lastApplied
  {
  }

  lemma AloneIdles(n: Node)
    requires Alone(n)
    ensures var (k, ready) := TakeReady(n); Alone(k) && k.role == n.role && ready == Ready([], [])
  {
    hide Log.Get;
    CompactedEnd(n);
  }

  // ---- Rounds --------------------------------------------------------------

  /** The write a round accepts: a write request, while the node leads. */
  function AcceptedIn(d: Driver, r: Request): seq<WriteCommand> {
    if r.Write? && d.node.role.Leader? then [r.command] else []
  }

  function Fold(s: Store, commands: seq<WriteCommand>): Store {
    if commands == [] then s else Apply(commands[|commands| - 1], Fold(s, commands[..|commands| - 1]))
  }

  lemma AloneWrites(codec: CommandCodec, d: Driver, r: Request, data: seq<KeyValue>)
    requires Faithful(codec) && Alone(d.node) && d.waiters == map[] && r.Write? && d.node.role.Leader?
    ensures var p := Iterate(codec, d, r, data);
            && Alone(p.driver.node) && p.driver.waiters == map[] && p.sent == []
            && p.driver.store == Apply(r.command, d.store)
            && p.served == Newcomer(codec, r) && p.redirected == multiset{}
  {
    hide Propose, TakeReady, Apply, Alone;
    var w := Waiter(r.id, codec.encode(r.command));
    AloneProposes(d.node, w.command);
    var m := Propose(d.node, w.command).0;
    AloneDrains(d.node, m, LogEntry(d.node.currentTerm, w.command));
    var i := d.node.log.LastIndex() + 1;
    DeliverSingle(codec, d.store, map[i := [w]], i, w.command);
    assert WaitersAt(d.waiters, i) + [w] == [w];
    assert d.waiters[i := WaitersAt(d.waiters, i) + [w]] == map[i := [w]];
    assert map[i := [w]] - {i} == map[];
  }

  lemma DeliverSingle(codec: CommandCodec, s: Store, waiters: Waiters, i: nat, command: Command)
    ensures DeliverAll(codec, s, waiters, [Committed.Command(i, command)]) ==
              DeliverOne(codec, Delivery(s, waiters, multiset{}), Committed.Command(i, command))
  {
    assert [Committed.Command(i, command)][..0] == [];
  }

  lemma AloneWaits(codec: CommandCodec, d: Driver, r: Request, data: seq<KeyValue>)
    requires Alone(d.node) && d.waiters == map[] && !r.Peer? && AcceptedIn(d, r) == []
    ensures var p := Iterate(codec, d, r, data);
            && Alone(p.driver.node) && p.driver.waiters == map[] && p.sent == []
            && p.driver.store == d.store && p.served == multiset{} && p.redirected == Newcomer(codec, r)
  {
    hide Tick, TakeReady, Alone;
    var h := Handle(codec, d, r).driver;
    assert h.store == d.store && h.waiters == map[];
    assert Alone(h.node) by {
      if r.Ticked? {
        AloneTicks(d.node, r.draw);
      }
    }
    AloneIdles(h.node);
  }

  /** One round of a lone driver: a write is either applied and answered "committed" on the spot, or
      refused; nothing is sent and nobody is left waiting. */
  lemma AloneRound(codec: CommandCodec, d: Driver, r: Request, data: seq<KeyValue>)
    requires Faithful(codec) && Alone(d.node) && d.waiters == map[] && !r.Peer?
    ensures var p := Iterate(codec, d, r, data);
            && Alone(p.driver.node) && p.driver.waiters == map[] && p.sent == []
            && p.driver.store == Fold(d.store, AcceptedIn(d, r))
            && p.served + p.redirected == Newcomer(codec, r)
            && (AcceptedIn(d, r) != [] ==> p.served == Newcomer(codec, r))
  {
    hide Iterate, Alone, Newcomer, Faithful, Apply;
    if AcceptedIn(d, r) == [] {
      AloneWaits(codec, d, r, data);
    } else {
      AloneWrites(codec, d, r, data);
      assert AcceptedIn(d, r)[..0] == [];
    }
  }

  /** The writes accepted during a run, in order. */
  ghost function AcceptedDuring(codec: CommandCodec, d: Driver, rounds: seq<Round>): seq<WriteCommand> {
    if rounds == [] then []
    else
      var last := |rounds| - 1;
      AcceptedDuring(codec, d, rounds[..last]) + AcceptedIn(Drive(codec, d, rounds[..last]), rounds[last].request)
  }

  lemma {:induction false} FoldMore(s: Store, a: seq<WriteCommand>, b: seq<WriteCommand>)
    ensures Fold(s, a + b) == Fold(Fold(s, a), b)
    decreases |b|
  {
    hide Apply;
    if b == [] {
      assert a + b == a;
    } else {
      assert (a + b)[..|a + b| - 1] == a + b[..|b| - 1];
      FoldMore(s, a, b[..|b| - 1]);
    }
  }

  lemma {:induction false} AloneRun(codec: CommandCodec, d: Driver, rounds: seq<Round>)
    requires Faithful(codec) && Alone(d.node) && d.waiters == map[]
    requires forall k :: 0 <= k < |rounds| ==> !rounds[k].request.Peer?
    ensures var e := Drive(codec, d, rounds);
            Alone(e.node) && e.waiters == map[] && e.store == Fold(d.store, AcceptedDuring(codec, d, rounds))
    decreases |rounds|
  {
    hide Alone, Iterate, AcceptedIn, Faithful;
    if rounds != [] {
      var last := |rounds| - 1;
      AloneRun(codec, d, rounds[..last]);
      var e, r := Drive(codec, d, rounds[..last]), rounds[last];
      AloneRound(codec, e, r.request, r.data);
      FoldMore(d.store, AcceptedDuring(codec, d, rounds[..last]), AcceptedIn(e, r.request));
    }
  }

  /** Single-node exactness: after any interleaving of ticks, writes and drains, whatever the compaction
      threshold, the store is the fold of all accepted writes in the order they were proposed. */
  lemma SoloExact(codec: CommandCodec, id: NodeId, config: Config, draw: nat, rounds: seq<Round>)
    requires Faithful(codec) && forall k :: 0 <= k < |rounds| ==> !rounds[k].request.Peer?
    ensures var start := NewDriver(id, [], config, draw);
            var e := Drive(codec, start, rounds);
            e.store == Fold(map[], AcceptedDuring(codec, start, rounds)) && e.waiters == map[]
  {
    hide Drive, AcceptedDuring, Faithful;
    AloneRun(codec, NewDriver(id, [], config, draw), rounds);
  }
}
