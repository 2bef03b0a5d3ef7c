/**
 * Exactly when a client is told "committed" although another command took the
 * place of its own: the driver answers waiters before it looks whether it was
 * deposed (src/server.rs).
 */
module Misleading {
  import opened Basics
  import opened Messages
  import opened Logs
  import opened Nodes
  import opened Splicing
  import opened Compaction
  import opened Emission
  import opened Stores
  import opened Drivers
  import opened Waiting

  // ---- What an append replaces ---------------------------------------------

  /** The `j`-th entry of the append has another term than the log's entry in its place. */
  predicate Conflict(log: Log, m: Message, j: nat)
    requires m.AppendEntries? && j < |m.entries|
  {
    log.TermAt(m.prevLogIndex + 1 + j) != Some(m.entries[j].term)
  }

  /** The index after which the append's entries land. */
  function Base(log: Log, m: Message): nat
    requires m.AppendEntries?
  {
    if Misplaced(log, m.prevLogIndex, m.entries) then log.snapshotIndex else m.prevLogIndex
  }

  /** The append replaces the entry at `index`: it cuts the log there or before, and what lands at that
      index is another command. */
  predicate Replaces(log: Log, m: Message, index: nat)
    requires m.AppendEntries?
  {
    var base := Base(log, m);
    && base < index <= base + |m.entries|
    && (Misplaced(log, m.prevLogIndex, m.entries) || exists j: nat :: j < index - base && Conflict(log, m, j))
    && log.Get(index).Some? && m.entries[index - base - 1].command != log.Get(index).value.command
  }

  /** The command that lands at `index`. */
  function Replacement(log: Log, m: Message, index: nat): Command
    requires m.AppendEntries? && Replaces(log, m, index)
  {
    m.entries[index - Base(log, m) - 1].command
  }

  /** After the splice, `index` holds the replacement, or what it held before, or nothing. */
  predicate ReplacedAs(log: Log, m: Message, index: nat, s: Log)
    requires m.AppendEntries? && log.Get(index).Some?
  {
    if Replaces(log, m, index) then s.Get(index).Some? && s.Get(index).value.command == Replacement(log, m, index)
    else s.Get(index).Some? ==> s.Get(index).value.command == log.Get(index).value.command
  }

  lemma ReplacedAbove(log: Log, m: Message, index: nat)
    requires m.AppendEntries? && log.snapshotIndex <= m.prevLogIndex <= log.LastIndex() && log.Get(index).Some?
    ensures ReplacedAs(log, m, index, log.Splice(m.prevLogIndex, m.entries))
  {
    hide Log.Splice, Log.SpliceAt, Log.TruncateFrom, Log.Append, Log.Get, Log.TermAt;
    var next := m.prevLogIndex + 1;
    var k := SpliceShape(log, next, m.entries);
    SpliceIsAt(log, m.prevLogIndex, m.entries);
    assert forall j: nat :: j < k ==> !Conflict(log, m, j);
    if k < |m.entries| {
      CutAndExtend(log, next, m.entries, k, index);
      assert Conflict(log, m, k);
    }
  }

  lemma ReplacedMisplaced(log: Log, m: Message, index: nat)
    requires m.AppendEntries? && m.prevLogIndex == 0 && log.Get(index).Some?
    requires Misplaced(log, m.prevLogIndex, m.entries)
    ensures ReplacedAs(log, m, index, log.Splice(0, m.entries))
  {
    hide Log.Splice;
    MisplacedFromTheStart(log, m.entries);
  }

  /** The snapshot covers just the first entry and agrees on it: the append works as if it started there. */
  lemma ReplacedShifted(log: Log, m: Message, index: nat)
    requires m.AppendEntries? && m.prevLogIndex == 0 && log.snapshotIndex == 1 && m.entries != []
    requires log.snapshotTerm == m.entries[0].term && log.Get(index).Some?
    ensures ReplacedAs(log, m, index, log.Splice(0, m.entries))
  {
    hide Log.Splice, Log.Get, Log.TermAt;
    var rest := m.(prevLogIndex := 1, entries := m.entries[1..]);
    MisplacedFromTheStart(log, m.entries);
    GetBound(log, index);
    ReplacedAbove(log, rest, index);
    SnapshotTermAt(log);
    assert forall j: nat :: 0 < j < |m.entries| ==> (Conflict(log, m, j) <==> Conflict(log, rest, j - 1));
    assert forall j: nat :: j < |rest.entries| ==> (Conflict(log, rest, j) <==> Conflict(log, m, j + 1));
    assert !Conflict(log, m, 0);
    if Replaces(log, m, index) {
      var j: nat :| j < index && Conflict(log, m, j);
      assert Conflict(log, rest, j - 1);
    }
  }

  lemma SnapshotTermAt(log: Log)
    ensures log.TermAt(log.snapshotIndex) == Some(log.snapshotTerm)
  {
  }

  /** Any append that passes the consistency check. */
  lemma ReplacedEntry(log: Log, m: Message, index: nat)
    requires m.AppendEntries? && log.Matches(m.prevLogIndex, m.prevLogTerm) && log.Get(index).Some?
    ensures ReplacedAs(log, m, index, log.Splice(m.prevLogIndex, m.entries))
  {
    hide Log.Matches, Log.Splice, ReplacedAs;
    if m.prevLogIndex >= log.snapshotIndex {
      MatchBound(log, m.prevLogIndex, m.prevLogTerm);
      ReplacedAbove(log, m, index);
    } else {
      OnlyFromTheStart(log, m.prevLogIndex, m.prevLogTerm);
      if m.entries == [] {
        NothingSpliced(log, 0);
        assert ReplacedAs(log, m, index, log) by {
          Unreplaced(log, m, index);
        }
      } else if Misplaced(log, m.prevLogIndex, m.entries) {
        ReplacedMisplaced(log, m, index);
      } else {
        ReplacedShifted(log, m, index);
      }
    }
  }

  lemma Unreplaced(log: Log, m: Message, index: nat)
    requires m.AppendEntries? && m.entries == [] && log.Get(index).Some?
    ensures ReplacedAs(log, m, index, log)
  {
  }

  // ---- Who is misled -------------------------------------------------------

  /** The round tells `w` that its command is committed, but applies another command at `i`, the index
      `w` waits for. */
  ghost predicate Misled(codec: CommandCodec, d: Driver, r: Request, i: nat, w: Waiter) {
    var h := Handle(codec, d, r).driver;
    var items := TakeReady(h.node).1.committed;
    && w in WaitersAt(h.waiters, i) && w in DeliverAll(codec, h.store, h.waiters, items).served
    && exists c :: c in items && c.Command? && c.index == i && c.command != w.command
  }

  /** Everybody who waits for an emitted index is answered. */
  lemma {:induction false} AnsweredAt(codec: CommandCodec, s: Store, waiters: Waiters, items: seq<Committed>,
                                      c: Committed, w: Waiter)
    requires c in items && c.Command? && w in WaitersAt(waiters, c.index)
    ensures w in DeliverAll(codec, s, waiters, items).served
    decreases |items|
  {
    var last := |items| - 1;
    var rest := items[..last];
    assert items == rest + [items[last]];
    if d :| d in rest && d.Command? && d.index == c.index {
      AnsweredAt(codec, s, waiters, rest, d, w);
    } else {
      StillWaiting(codec, s, waiters, rest, c.index);
    }
  }

  /** A leader that is deposed otherwise has no command to apply. */
  lemma DeposedIdle(n: Node, from: NodeId, m: Message, draw: nat)
    requires n.role.Leader? && n.commitIndex <= n.lastApplied && n.committed == []
    requires !Accepts(n, m) && !Step(n, from, m, draw).role.Leader?
    ensures forall c :: c in TakeReady(Step(n, from, m, draw)).1.committed ==> !c.Command?
  {
    hide BecomeLeader, CommitPoint, Log.Matches, Log.Splice, UpToDate, AppendFor, Log.Compact;
    var s := Step(n, from, m, draw);
    assert CommandsIn(s.log, s.lastApplied, s.commitIndex) == [];
  }

  /** What an accepted append makes a settled leader apply. */
  lemma AcceptedEmits(n: Node, from: NodeId, m: Message, draw: nat, i: nat, command: Command)
    requires n.role.Leader? && n.commitIndex <= n.lastApplied && n.committed == [] && Accepts(n, m)
    ensures var log := n.log.Splice(m.prevLogIndex, m.entries);
            Committed.Command(i, command) in TakeReady(Step(n, from, m, draw)).1.committed <==>
              && n.lastApplied < i <= m.leaderCommit && log.Get(i).Some? && log.Get(i).value.command == command != []
  {
    hide Log.Splice, Log.Matches, ConflictHint, CommandsIn, Log.Get, Log.Compact;
    var s := Step(n, from, m, draw);
    assert s.log == n.log.Splice(m.prevLogIndex, m.entries) && s.lastApplied == n.lastApplied && s.committed == [];
    assert s.commitIndex ==
             if m.leaderCommit > n.commitIndex then Min(m.leaderCommit, s.log.LastIndex()) else n.commitIndex;
    var c := Committed.Command(i, command);
    if c in CommandsIn(s.log, s.lastApplied, s.commitIndex) {
      CommandsAt(s.log, s.lastApplied, s.commitIndex, c);
    }
    if n.lastApplied < i <= m.leaderCommit && s.log.Get(i).Some? && s.log.Get(i).value.command == command != [] {
      GetBound(s.log, i);
      CommandsAll(s.log, s.lastApplied, s.commitIndex, i);
    }
  }

  lemma GetBound(log: Log, i: nat)
    requires log.Get(i).Some?
    ensures log.snapshotIndex < i <= log.LastIndex()
  {
  }

  /** Whoever still leads misleads nobody. */
  lemma LeaderNeverMisleads(codec: CommandCodec, d: Driver, r: Request, i: nat, w: Waiter)
    requires Faithful(codec) && Settled(d) && Handle(codec, d, r).driver.node.role.Leader?
    ensures !Misled(codec, d, r, i, w)
  {
    hide Handle, CommandsIn, Faithful, DeliverAll;
    HandleHolds(codec, d, r);
    var h := Handle(codec, d, r).driver;
    if Misled(codec, d, r, i, w) {
      var c :| c in TakeReady(h.node).1.committed && c.Command? && c.index == i && c.command != w.command;
      CommandsAt(h.node.log, h.node.lastApplied, h.node.commitIndex, c);
      assert false;
    }
  }

  lemma OnlyMessagesDepose(codec: CommandCodec, d: Driver, r: Request)
    requires d.node.role.Leader? && !r.Peer?
    ensures Handle(codec, d, r).driver.node.role.Leader?
  {
    hide CommitPoint, Appends;
  }

  /** The accepted append replaces the client's entry and already commits the replacement. */
  predicate Overtaken(n: Node, m: Message, i: nat) {
    && Accepts(n, m) && n.lastApplied < i <= m.leaderCommit
    && Replaces(n.log, m, i) && Replacement(n.log, m, i) != []
  }

  lemma OvertakenMisleads(codec: CommandCodec, d: Driver, from: NodeId, m: Message, draw: nat, i: nat, w: Waiter)
    requires Settled(d) && i in d.waiters && w in d.waiters[i] && Overtaken(d.node, m, i)
    ensures Misled(codec, d, Peer(from, m, draw), i, w)
  {
    hide Step, TakeReady, Log.Splice, Log.Get, Replaces, DeliverAll, Log.Matches;
    var n, c := d.node, Committed.Command(i, Replacement(d.node.log, m, i));
    assert Holds(n, i, w.command);
    ReplacedEntry(n.log, m, i);
    ReplacementDiffers(n.log, m, i);
    AcceptedEmits(n, from, m, draw, i, c.command);
    AnsweredAt(codec, d.store, d.waiters, TakeReady(Step(n, from, m, draw)).1.committed, c, w);
  }

  lemma ReplacementDiffers(log: Log, m: Message, index: nat)
    requires m.AppendEntries? && Replaces(log, m, index)
    ensures log.Get(index).Some? && Replacement(log, m, index) != log.Get(index).value.command
  {
  }

  lemma MisledMeansOvertaken(codec: CommandCodec, d: Driver, from: NodeId, m: Message, draw: nat, i: nat, w: Waiter)
    requires Settled(d) && i in d.waiters && w in d.waiters[i] && Accepts(d.node, m)
    requires Misled(codec, d, Peer(from, m, draw), i, w)
    ensures Overtaken(d.node, m, i)
  {
    hide Step, TakeReady, Log.Splice, Log.Get, Replaces, DeliverAll, Log.Matches, Replacement;
    var n := d.node;
    var c :| c in TakeReady(Step(n, from, m, draw)).1.committed && c.Command? && c.index == i && c.command != w.command;
    AcceptedEmits(n, from, m, draw, i, c.command);
    assert Holds(n, i, w.command);
    ReplacedEntry(n.log, m, i);
  }

  /** Exactly when a client is misled: in this very round the node accepts another leader's append that
      replaces the client's entry and already commits the replacement. */
  lemma MisledExactly(codec: CommandCodec, d: Driver, r: Request, i: nat, w: Waiter)
    requires Faithful(codec) && Settled(d) && i in d.waiters && w in d.waiters[i]
    ensures Misled(codec, d, r, i, w) <==> r.Peer? && Overtaken(d.node, r.message, i)
  {
    hide Handle, Accepts, Replaces, Holds, AllHeld, Replacement, DeliverAll, Faithful;
    if Handle(codec, d, r).driver.node.role.Leader? {
      LeaderNeverMisleads(codec, d, r, i, w);
    }
    if !r.Peer? {
      OnlyMessagesDepose(codec, d, r);
    } else {
      StepIsHandled(codec, d, r.from, r.message, r.draw);
      if Overtaken(d.node, r.message, i) {
        OvertakenMisleads(codec, d, r.from, r.message, r.draw, i, w);
      } else if Accepts(d.node, r.message) {
        if Misled(codec, d, r, i, w) {
          MisledMeansOvertaken(codec, d, r.from, r.message, r.draw, i, w);
        }
      } else if !Step(d.node, r.from, r.message, r.draw).role.Leader? {
        DeposedIdle(d.node, r.from, r.message, r.draw);
      }
    }
  }

  lemma StepIsHandled(codec: CommandCodec, d: Driver, from: NodeId, m: Message, draw: nat)
    ensures Handle(codec, d, Peer(from, m, draw)) == Handled(d.(node := Step(d.node, from, m, draw)), multiset{}, None)
    ensures m.AppendEntries? && Accepts(d.node, m) ==> !Step(d.node, from, m, draw).role.Leader?
  {
    hide Log.Splice, Log.Matches;
  }
}
