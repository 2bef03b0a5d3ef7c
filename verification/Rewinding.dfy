/**
 * Exactly when a node hands out an index again: an installed snapshot may lower
 * the applied index, and nothing else does.
 */
module Rewinding {
  import opened Basics
  import opened Messages
  import opened Logs
  import opened Nodes
  import opened Emission
  import opened LeaderChain
  import opened Applying

  // ---- When the applied index falls ----------------------------------------

  /** The message is a snapshot that gets installed below the applied index. */
  predicate Rewinds(n: Node, m: Message) {
    m.InstallSnapshot? && m.term >= n.currentTerm && m.lastIncludedIndex < n.lastApplied
  }

  lemma AppliedStays(n: Node, from: NodeId, m: Message, draw: nat)
    requires !(m.InstallSnapshot? && m.term >= n.currentTerm)
    ensures var s := Step(n, from, m, draw); s.lastApplied == n.lastApplied && s.committed == n.committed
  {
    hide Step;
    if m.AppendEntries? {
      AppendStep(n, from, m, draw);
    } else {
      StepSilent(n, from, m, draw);
    }
  }

  lemma InstallApplies(n: Node, from: NodeId, m: Message, draw: nat)
    requires m.InstallSnapshot? && m.term >= n.currentTerm
    ensures var s := Step(n, from, m, draw);
            s.lastApplied == m.lastIncludedIndex && s.committed == n.committed + [Snapshot(m.data)]
  {
  }

  /** One step, exactly: the applied index falls if and only if an older snapshot is installed. */
  lemma FallsExactly(n: Node, from: NodeId, m: Message, draw: nat)
    ensures Step(n, from, m, draw).lastApplied < n.lastApplied <==> Rewinds(n, m)
  {
    hide Step;
    if m.InstallSnapshot? && m.term >= n.currentTerm {
      InstallApplies(n, from, m, draw);
    } else {
      AppliedStays(n, from, m, draw);
    }
  }

  // ---- Without that, every index is handed out at most once -----------------

  /** The commands' indices strictly increase and stay at or below `bound`. */
  predicate Rising(items: seq<Committed>, bound: nat) {
    && (forall p :: 0 <= p < |items| && items[p].Command? ==> items[p].index <= bound)
    && (forall p, q :: 0 <= p < q < |items| && items[p].Command? && items[q].Command? ==>
          items[p].index < items[q].index)
  }

  predicate OnlySnapshots(items: seq<Committed>) {
    forall p :: 0 <= p < |items| ==> items[p].Snapshot?
  }

  /** Whatever the log is, a drain hands out indices in order, all above the applied one. */
  lemma {:induction false} CommandsRise(log: Log, a: nat, b: nat)
    ensures Rising(CommandsIn(log, a, b), Max(a, b))
    ensures forall p :: 0 <= p < |CommandsIn(log, a, b)| ==>
              CommandsIn(log, a, b)[p].Command? && CommandsIn(log, a, b)[p].index > a
  {
    if b > a {
      CommandsRise(log, a, b - 1);
    }
  }

  lemma RisingJoin(given: seq<Committed>, queued: seq<Committed>, more: seq<Committed>, a: nat, b: nat)
    requires Rising(given, a) && OnlySnapshots(queued) && Rising(more, b) && a <= b
    requires forall p :: 0 <= p < |more| ==> more[p].Command? && more[p].index > a
    ensures Rising(given + (queued + more), b)
  {
  }

  lemma RisingFurther(given: seq<Committed>, a: nat, b: nat)
    requires Rising(given, a) && a <= b
    ensures Rising(given, b) && given + [] == given
  {
  }

  /** The input does not lower the applied index. */
  predicate NoRewind(n: Node, i: Input) {
    i.Received? ==> !Rewinds(n, i.message)
  }

  lemma DrainRises(n: Node, given: seq<Committed>)
    requires Rising(given, n.lastApplied) && OnlySnapshots(n.committed)
    ensures var (m, ready) := TakeReady(n); Rising(given + ready.committed, m.lastApplied) && m.committed == []
  {
    hide Rising, OnlySnapshots, CommandsIn;
    CommandsRise(n.log, n.lastApplied, n.commitIndex);
    RisingJoin(given, n.committed, CommandsIn(n.log, n.lastApplied, n.commitIndex), n.lastApplied,
               Max(n.lastApplied, n.commitIndex));
  }

  lemma StepRises(n: Node, from: NodeId, m: Message, draw: nat)
    requires OnlySnapshots(n.committed) && !Rewinds(n, m)
    ensures var s := Step(n, from, m, draw); s.lastApplied >= n.lastApplied && OnlySnapshots(s.committed)
  {
    hide Step;
    if m.InstallSnapshot? && m.term >= n.currentTerm {
      InstallApplies(n, from, m, draw);
    } else {
      AppliedStays(n, from, m, draw);
    }
  }

  lemma FeedRises(n: Node, i: Input, given: seq<Committed>)
    requires Rising(given, n.lastApplied) && OnlySnapshots(n.committed) && NoRewind(n, i)
    ensures var m := Feed(n, i); Rising(given + Output(n, i), m.lastApplied) && OnlySnapshots(m.committed)
  {
    hide Rising, Tick, Step, Propose, TakeReady, Rewinds;
    match i {
      case Ticked(draw) => TickSilent(n, draw);
      case Proposed(command) => ProposeSilent(n, command);
      case Drained => DrainRises(n, given);
      case Received(from, m, draw) => StepRises(n, from, m, draw);
    }
    RisingFurther(given, n.lastApplied, Max(n.lastApplied, Feed(n, i).lastApplied));
  }

  /** Over every run, whatever is truncated, misplaced or compacted: if no snapshot is installed below the
      applied index, the indices handed out strictly increase, so none is handed out twice. */
  lemma {:induction false} NoRewindNoRepeat(n: Node, inputs: seq<Input>)
    requires OnlySnapshots(n.committed)
    requires forall k :: 0 <= k < |inputs| ==> NoRewind(FeedAll(n, inputs[..k]), inputs[k])
    ensures Rising(Outputs(n, inputs), FeedAll(n, inputs).lastApplied) && OnlySnapshots(FeedAll(n, inputs).committed)
    decreases |inputs|
  {
    hide Feed, Output, NoRewind;
    if inputs != [] {
      var last := |inputs| - 1;
      var rest := inputs[..last];
      forall k | 0 <= k < |rest| ensures NoRewind(FeedAll(n, rest[..k]), rest[k]) {
        assert rest[..k] == inputs[..k] && rest[k] == inputs[k];
      }
      NoRewindNoRepeat(n, rest);
      FeedRises(FeedAll(n, rest), inputs[last], Outputs(n, rest));
    }
  }

  // ---- With it, an index can be handed out again ----------------------------

  lemma {:induction false} FeedMore(n: Node, a: seq<Input>, b: seq<Input>)
    ensures FeedAll(n, a + b) == FeedAll(FeedAll(n, a), b)
    ensures Outputs(n, a + b) == Outputs(n, a) + Outputs(FeedAll(n, a), b)
    decreases |b|
  {
    hide Feed, Output;
    if b == [] {
      assert a + b == a;
    } else {
      assert (a + b)[..|a + b| - 1] == a + b[..|b| - 1];
      FeedMore(n, a, b[..|b| - 1]);
    }
  }

  /** A snapshot, the append of the one entry after it, and a drain. */
  function CatchUp(from: NodeId, s: Message, m: Message, draw: nat): seq<Input> {
    [Received(from, s, draw), Received(from, m, draw), Drained]
  }

  predicate Continues(s: Message, m: Message) {
    && s.InstallSnapshot? && m.AppendEntries? && m.term == s.term
    && m.prevLogIndex == s.lastIncludedIndex && m.prevLogTerm == s.lastIncludedTerm
    && |m.entries| == 1 && m.entries[0].command != [] && m.leaderCommit == m.prevLogIndex + 1
  }

  function CaughtUp(s: Message, m: Message): seq<Committed>
    requires Continues(s, m)
  {
    [Snapshot(s.data), Committed.Command(m.leaderCommit, m.entries[0].command)]
  }

  lemma Installed(n: Node, from: NodeId, s: Message, draw: nat)
    requires s.InstallSnapshot? && s.term >= n.currentTerm && n.committed == []
    ensures var i := Step(n, from, s, draw);
            && i.log == Log([], s.lastIncludedIndex, s.lastIncludedTerm) && i.currentTerm == s.term
            && i.commitIndex == i.lastApplied == s.lastIncludedIndex && i.committed == [Snapshot(s.data)]
  {
    assert [] + [Snapshot(s.data)] == [Snapshot(s.data)];
  }

  lemma Catches(n: Node, from: NodeId, m: Message, draw: nat)
    requires m.AppendEntries? && n.log == Log([], m.prevLogIndex, m.prevLogTerm) && n.currentTerm == m.term
    requires n.commitIndex == n.lastApplied == m.prevLogIndex
    requires |m.entries| == 1 && m.leaderCommit == m.prevLogIndex + 1
    ensures var a := Step(n, from, m, draw);
            && a.log == Log(m.entries, m.prevLogIndex, m.prevLogTerm) && a.currentTerm == m.term
            && a.commitIndex == m.leaderCommit && a.lastApplied == m.prevLogIndex && a.committed == n.committed
  {
    hide Step;
    AppendStep(n, from, m, draw);
    StepKeepsTerm(n, from, m, draw);
    assert [] + m.entries == m.entries;
  }

  lemma StepKeepsTerm(n: Node, from: NodeId, m: Message, draw: nat)
    requires m.AppendEntries? && n.currentTerm == m.term
    ensures Step(n, from, m, draw).currentTerm == m.term
  {
    hide Log.Matches, Log.Splice;
  }

  lemma Drains(n: Node, prev: nat, term: nat, e: LogEntry, queued: seq<Committed>)
    requires n.log == Log([e], prev, term) && n.commitIndex == prev + 1 && n.lastApplied == prev
    requires e.command != [] && n.committed == queued
    ensures TakeReady(n).1.committed == queued + [Committed.Command(prev + 1, e.command)]
    ensures TakeReady(n).0.committed == [] && TakeReady(n).0.currentTerm == n.currentTerm
  {
    assert CommandsIn(n.log, prev, prev) == [];
    assert CommandsIn(n.log, prev, prev + 1) == [Committed.Command(prev + 1, e.command)];
  }

  lemma CatchesUp(n: Node, from: NodeId, s: Message, m: Message, draw: nat)
    requires Continues(s, m) && s.term >= n.currentTerm && n.committed == []
    ensures Outputs(n, CatchUp(from, s, m, draw)) == CaughtUp(s, m)
    ensures var k := FeedAll(n, CatchUp(from, s, m, draw)); k.committed == [] && k.currentTerm == s.term
  {
    hide Step, TakeReady;
    var inputs := CatchUp(from, s, m, draw);
    var i := Step(n, from, s, draw);
    var a := Step(i, from, m, draw);
    Installed(n, from, s, draw);
    Catches(i, from, m, draw);
    assert m.entries == [m.entries[0]];
    Drains(a, m.prevLogIndex, m.prevLogTerm, m.entries[0], [Snapshot(s.data)]);
    assert inputs[..2][..1][..0] == [] && FeedAll(n, []) == n && Outputs(n, []) == [];
    assert inputs[..2][..1][0] == inputs[0] && FeedAll(n, inputs[..2][..1]) == i && Outputs(n, inputs[..2][..1]) == [];
    assert inputs[..2][1] == inputs[1] && FeedAll(n, inputs[..2]) == a && Outputs(n, inputs[..2]) == [];
  }

  /** A redelivered snapshot undoes the application: whatever the node, the same snapshot and the same
      append delivered twice make it hand out the same index twice. */
  lemma RedeliveredSnapshotRepeats(n: Node, from: NodeId, s: Message, m: Message, draw: nat)
    requires Continues(s, m) && s.term >= n.currentTerm && n.committed == []
    ensures var inputs := CatchUp(from, s, m, draw);
            Outputs(n, inputs + inputs) == CaughtUp(s, m) + CaughtUp(s, m)
  {
    hide FeedAll, Outputs, CatchUp;
    var inputs := CatchUp(from, s, m, draw);
    CatchesUp(n, from, s, m, draw);
    FeedMore(n, inputs, inputs);
    CatchesUp(FeedAll(n, inputs), from, s, m, draw);
  }

  /** The other way round: after any snapshot installed below the applied index, the append of the next
      entry makes the node hand out an index it has passed already. */
  lemma RewindRepeats(n: Node, from: NodeId, s: Message, m: Message, draw: nat)
    requires Rewinds(n, s) && Continues(s, m) && n.committed == []
    ensures var o := Outputs(n, CatchUp(from, s, m, draw));
            |o| == 2 && o[1].Command? && o[1].index <= n.lastApplied && o[1].command == m.entries[0].command
  {
    hide FeedAll, Outputs, CatchUp;
    CatchesUp(n, from, s, m, draw);
  }
}
