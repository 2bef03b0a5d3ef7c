/** What a node hands to its state machine, as a function of its log. */
module Emission {
  import opened Basics
  import opened Messages
  import opened Logs
  import opened Nodes

  /** The non-empty commands at indices 1 to `k` of a full log, in order. */
  function Emitted(l: FullLog, k: nat): seq<Committed> {
    CommandsIn(Plain(l), 0, k)
  }

  lemma {:induction false} CommandsSplit(log: Log, a: nat, b: nat, c: nat)
    requires a <= b <= c
    ensures CommandsIn(log, a, c) == CommandsIn(log, a, b) + CommandsIn(log, b, c)
  {
    if c > b {
      CommandsSplit(log, a, b, c - 1);
    }
  }

  /** Compaction does not change what is emitted above the snapshot point. */
  lemma {:induction false} CommandsAgree(log: Log, full: FullLog, a: nat, b: nat)
    requires Compacts(log, full) && a >= log.snapshotIndex
    ensures CommandsIn(log, a, b) == CommandsIn(Plain(full), a, b)
  {
    if b > a {
      CommandsAgree(log, full, a, b - 1);
      QueriesAgree(log, full, b);
    }
  }

  lemma {:induction false} EmittedStays(l: FullLog, m: FullLog, k: nat)
    requires Agree(l, m, k)
    ensures Emitted(l, k) == Emitted(m, k)
  {
    if k > 0 {
      EmittedStays(l, m, k - 1);
    }
  }

  lemma EmittedPrefix(l: FullLog, j: nat, k: nat)
    requires j <= k
    ensures Emitted(l, j) <= Emitted(l, k)
  {
    CommandsSplit(Plain(l), 0, j, k);
  }

  /** Everything emitted from a range is a command stored in it ... */
  lemma {:induction false} CommandsAt(log: Log, a: nat, b: nat, c: Committed)
    requires c in CommandsIn(log, a, b)
    ensures c.Command? && a < c.index <= b && c.command != []
    ensures log.Get(c.index).Some? && log.Get(c.index).value.command == c.command
  {
    if c !in CommandAt(log, b) {
      CommandsAt(log, a, b - 1, c);
    }
  }

  /** ... and every non-empty command stored in it is emitted. */
  lemma {:induction false} CommandsAll(log: Log, a: nat, b: nat, index: nat)
    requires a < index <= b && log.Get(index).Some? && log.Get(index).value.command != []
    ensures Committed.Command(index, log.Get(index).value.command) in CommandsIn(log, a, b)
  {
    if index < b {
      CommandsAll(log, a, b - 1, index);
    }
  }

  /** The applied range and the snapshot point are in step and nothing is queued. `given` is what the
      node emitted in earlier drains. */
  predicate OutputOk(l: FullLog, n: Node, given: seq<Committed>) {
    && n.log.snapshotIndex <= n.lastApplied <= n.commitIndex
    && n.committed == [] && given == Emitted(l, n.lastApplied)
  }

  lemma CompactKeeps(n: Node, l: FullLog)
    requires Compacts(n.log, l) && n.log.snapshotIndex <= n.lastApplied
    ensures Compacts(MaybeCompact(n).log, l) && MaybeCompact(n).log.snapshotIndex <= n.lastApplied
    ensures MaybeCompact(n) == n.(log := MaybeCompact(n).log)
  {
  }

  /** Exactly once, in order: a drain emits the commands between the applied and the commit index and
      nothing else, whether or not it compacts the log. */
  lemma DrainEmits(l: FullLog, n: Node, given: seq<Committed>)
    requires Compacts(n.log, l) && n.commitIndex <= |l| && OutputOk(l, n, given)
    ensures var (m, ready) := TakeReady(n);
            && Compacts(m.log, l) && m.lastApplied == m.commitIndex == n.commitIndex
            && OutputOk(l, m, given + ready.committed)
            && ready.messages == n.outgoing && m.outgoing == []
            && given + ready.committed == Emitted(l, n.commitIndex)
            && m == n.(log := m.log, lastApplied := n.commitIndex, outgoing := [], committed := [])
  {
    hide Compacts, CommandsIn;
    var a := n.(lastApplied := Max(n.lastApplied, n.commitIndex),
                committed := n.committed + CommandsIn(n.log, n.lastApplied, n.commitIndex));
    CompactKeeps(a, l);
    CommandsAgree(n.log, l, n.lastApplied, n.commitIndex);
    CommandsSplit(Plain(l), 0, n.lastApplied, n.commitIndex);
  }

  // ---- Steps that emit nothing ---------------------------------------------

  /** The step leaves the applied range alone and never lowers the commit index. */
  predicate Silent(n: Node, m: Node) {
    && m.lastApplied == n.lastApplied && m.committed == n.committed && m.config == n.config
    && m.commitIndex >= n.commitIndex && m.log.snapshotIndex == n.log.snapshotIndex
  }

  lemma AdvanceSilent(n: Node)
    ensures Silent(n, AdvanceCommit(n))
  {
    hide CommitPoint;
    CommitPointIsGreatest(n, n.log.LastIndex());
  }

  lemma LeaderSilent(n: Node)
    ensures Silent(n, BecomeLeader(n))
  {
    hide AdvanceCommit;
    AdvanceSilent(BroadcastAppend(TakeOffice(n)));
  }

  lemma AppendSilent(n: Node, m: Message, draw: nat)
    requires m.AppendEntries?
    requires m.term >= n.currentTerm && n.log.Matches(m.prevLogIndex, m.prevLogTerm) ==>
               n.commitIndex <= n.log.Splice(m.prevLogIndex, m.entries).LastIndex()
    ensures Silent(n, HandleAppendEntries(n, m, draw))
  {
    hide Log.SpliceAt, Log.Matches;
    SpliceKeepsSnapshot(n.log, m.prevLogIndex + 1, m.entries);
  }

  lemma TickSilent(n: Node, draw: nat)
    ensures Silent(n, Tick(n, draw))
  {
    hide BecomeLeader, BroadcastAppend;
    var m := n.(electionElapsed := n.electionElapsed + 1);
    LeaderSilent(StandForElection(m, draw));
    BroadcastSilent(n.(heartbeatElapsed := 0));
  }

  lemma BroadcastSilent(n: Node)
    ensures BroadcastAppend(n) == n.(outgoing := BroadcastAppend(n).outgoing)
  {
  }

  lemma ProposeSilent(n: Node, command: Command)
    ensures Silent(n, Propose(n, command).0)
  {
    hide AdvanceCommit;
    AdvanceSilent(BroadcastAppend(n.(log := n.log.Append([LogEntry(n.currentTerm, command)]))));
  }

  lemma ReplySilent(n: Node, from: NodeId, m: Message)
    requires m.AppendEntriesReply?
    ensures Silent(n, HandleAppendEntriesReply(n, from, m))
  {
    hide AdvanceCommit;
    AdvanceSilent(n.(progress := n.progress.SetMatch(from, m.matchIndex).SetNext(from, m.matchIndex + 1)));
  }

  lemma TallySilent(n: Node, m: Message)
    requires m.RequestVoteReply?
    ensures Silent(n, HandleRequestVoteReply(n, m))
  {
    hide BecomeLeader;
    LeaderSilent(n.(votes := n.votes + {m.voterId}));
  }

  /** Whatever message is handled, only an installed snapshot touches the applied range. */
  lemma StepSilent(n: Node, from: NodeId, m: Message, draw: nat)
    requires m.InstallSnapshot? ==> m.term < n.currentTerm
    requires m.AppendEntries? && m.term >= n.currentTerm && n.log.Matches(m.prevLogIndex, m.prevLogTerm) ==>
               n.commitIndex <= n.log.Splice(m.prevLogIndex, m.entries).LastIndex()
    ensures Silent(n, Step(n, from, m, draw))
  {
    hide HandleAppendEntries, HandleAppendEntriesReply, HandleRequestVoteReply, Log.Splice, Log.Matches;
    var h := Heed(n, m.term, draw);
    match m
    case RequestVote(_, _, _, _) =>
    case RequestVoteReply(_, _, _) => TallySilent(h, m);
    case AppendEntries(_, _, _, _, _, _) => AppendSilent(h, m, draw);
    case AppendEntriesReply(_, _, _, _, _) => ReplySilent(h, from, m);
    case InstallSnapshot(_, _, _, _, _) =>
    case InstallSnapshotReply(_, _) =>
  }
}
