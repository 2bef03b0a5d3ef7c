/**
 * Sparing applied entries is not enough to apply exactly once: a committed entry
 * that is dropped before it is applied leaves a gap. The driver drains after
 * every event, and there it is enough.
 */
module Skipping {
  import opened Basics
  import opened Messages
  import opened Logs
  import opened Nodes
  import opened Emission
  import opened LeaderChain
  import opened Applying

  /** The weaker guard: an accepted append overwrites no applied entry. */
  predicate AppliedIntact(n: Node, i: Input) {
    && (i.Received? && i.message.InstallSnapshot? ==> i.message.term < n.currentTerm)
    && (AcceptedAppend(n, i) ==> Preserves(n.log, i.message, n.lastApplied))
  }

  const E1 := LogEntry(1, [1])
  const E2 := LogEntry(1, [2])
  const F1 := LogEntry(2, [3])
  const F2 := LogEntry(2, [4])

  /** Two entries arrive committed; before they are applied a new leader replaces the first and so drops
      the second; a drain; then the new leader's second entry arrives; another drain. */
  const SKIPPING := [Received("b", AppendEntries(1, "b", 0, 0, [E1, E2], 2), 0),
                     Received("c", AppendEntries(2, "c", 0, 0, [F1], 0), 0), Drained,
                     Received("c", AppendEntries(2, "c", 1, 2, [F2], 2), 0), Drained]

  /** The node after the first `k` of these inputs. */
  predicate Skipping(n: Node, k: nat) {
    && n.committed == [] && n.lastApplied == (if k < 3 then 0 else 2) && n.commitIndex == (if k == 0 then 0 else 2)
    && n.currentTerm == (if k < 2 then k else 2)
    && (k < 5 ==> n.log == Plain(LogAt(k)))
  }

  /** The log before and after each append. */
  function LogAt(k: nat): seq<LogEntry> {
    if k == 0 then [] else if k == 1 then [E1, E2] else if k < 4 then [F1] else [F1, F2]
  }

  lemma SkippingSplices()
    ensures Plain([]).Splice(0, [E1, E2]) == Plain([E1, E2])
    ensures Plain([E1, E2]).Splice(0, [F1]) == Plain([F1])
    ensures Plain([F1]).Splice(1, [F2]) == Plain([F1, F2])
  {
    assert [] + [E1, E2] == [E1, E2] && [F1][..1] + [F2] == [F1, F2] && [E1, E2][..0] + [F1] == [F1];
  }

  lemma SkippingAppends(n: Node, k: nat)
    requires Skipping(n, k) && (k == 0 || k == 1 || k == 3)
    ensures Skipping(Feed(n, SKIPPING[k]), k + 1) && AcceptedAppend(n, SKIPPING[k])
  {
    hide Step, Log.Splice;
    SkippingSplices();
    AppendStep(n, SKIPPING[k].from, SKIPPING[k].message, 0);
  }

  lemma SkippingSpares(n: Node, k: nat)
    requires Skipping(n, k) && (k == 0 || k == 1 || k == 3)
    ensures AppliedIntact(n, SKIPPING[k])
  {
    hide Log.Splice;
    SkippingSplices();
  }

  lemma SkippingDrains(n: Node, k: nat)
    requires Skipping(n, k) && (k == 2 || k == 4)
    ensures Skipping(Feed(n, SKIPPING[k]), k + 1)
    ensures Output(n, SKIPPING[k]) == if k == 2 then [Committed.Command(1, [3])] else []
  {
    if k == 2 {
      assert CommandsIn(n.log, 0, 0) == [];
      assert CommandsIn(n.log, 0, 1) == [Committed.Command(1, [3])];
      assert CommandsIn(n.log, 0, 2) == [Committed.Command(1, [3])];
    }
    var items := CommandsIn(n.log, n.lastApplied, n.commitIndex);
    assert n.committed + items == items;
  }

  lemma {:induction false} SkippingRun(n: Node, k: nat)
    requires Skipping(n, 0) && k <= 5
    ensures Skipping(FeedAll(n, SKIPPING[..k]), k)
    ensures Outputs(n, SKIPPING[..k]) == if k < 3 then [] else [Committed.Command(1, [3])]
    ensures WholeLog(n, SKIPPING[..k]) == LogAt(k)
  {
    hide Feed, Skipping, Grown, Output;
    if k > 0 {
      var m := FeedAll(n, SKIPPING[..k - 1]);
      SkippingRun(n, k - 1);
      assert SKIPPING[..k][..k - 1] == SKIPPING[..k - 1];
      if k == 3 || k == 5 {
        SkippingDrains(m, k - 1);
        DrainGrowsNothing(m, LogAt(k - 1));
      } else {
        SkippingAppends(m, k - 1);
        SkippingLands(m, k - 1);
        AppendGivesNothing(m, SKIPPING[k - 1]);
      }
    }
  }

  lemma AppendGivesNothing(n: Node, i: Input)
    requires i.Received?
    ensures Output(n, i) == []
  {
  }

  lemma SkippingLands(n: Node, k: nat)
    requires Skipping(n, k) && (k == 0 || k == 1 || k == 3)
    ensures Grown(n, LogAt(k), SKIPPING[k]) == LogAt(k + 1)
  {
    hide Log.Splice;
    SkippingSplices();
  }

  lemma DrainGrowsNothing(n: Node, l: FullLog)
    ensures Grown(n, l, Drained) == l
  {
  }

  /** Applied entries are not enough to protect: from any fresh node, inputs that install no snapshot and
      overwrite no applied entry make it skip index 2 for good. */
  lemma OverwrittenCommitSkips(id: NodeId, peers: seq<NodeId>, config: Config, draw: nat)
    ensures var n := NewNode(id, peers, config, draw);
            && (forall k :: 0 <= k < |SKIPPING| ==> AppliedIntact(FeedAll(n, SKIPPING[..k]), SKIPPING[k]))
            && FeedAll(n, SKIPPING).lastApplied == 2 && WholeLog(n, SKIPPING) == [F1, F2]
            && Outputs(n, SKIPPING) == [Committed.Command(1, F1.command)]
  {
    hide FeedAll, Outputs, WholeLog;
    var n := NewNode(id, peers, config, draw);
    forall k | 0 <= k < |SKIPPING| ensures AppliedIntact(FeedAll(n, SKIPPING[..k]), SKIPPING[k]) {
      SkippingRun(n, k);
      if k != 2 && k != 4 {
        SkippingSpares(FeedAll(n, SKIPPING[..k]), k);
      }
    }
    SkippingRun(n, 5);
    assert SKIPPING[..5] == SKIPPING;
  }

  /** Every event followed by a drain, as the driver does it. */
  function Driven(events: seq<Input>): seq<Input> {
    if events == [] then [] else Driven(events[..|events| - 1]) + [events[|events| - 1], Drained]
  }

  lemma DrainCatchesUp(n: Node)
    ensures var m := TakeReady(n).0; m.commitIndex <= m.lastApplied
  {
    hide CommandsIn;
  }

  /** ... and there it is enough: between rounds everything committed is applied. */
  lemma {:induction false} DrivenIsIntact(n: Node, events: seq<Input>)
    requires n.commitIndex <= n.lastApplied
    requires forall k :: 0 <= k < |events| ==> AppliedIntact(FeedAll(n, Driven(events[..k])), events[k])
    ensures IntactRun(n, Driven(events))
    ensures FeedAll(n, Driven(events)).commitIndex <= FeedAll(n, Driven(events)).lastApplied
    decreases |events|
  {
    hide Tick, Step, Propose, TakeReady, AppliedIntact, Intact, FeedAll;
    if events == [] {
      FedNothing(n);
    } else {
      hide IntactRun;
      var last := |events| - 1;
      var rest := events[..last];
      forall k | 0 <= k < |rest| ensures AppliedIntact(FeedAll(n, Driven(rest[..k])), rest[k]) {
        assert rest[..k] == events[..k] && rest[k] == events[k];
      }
      DrivenIsIntact(n, rest);
      var before := Driven(rest);
      DrivenMore(n, before, events[last]);
    }
  }

  lemma FedNothing(n: Node)
    ensures FeedAll(n, []) == n
  {
  }

  lemma DrivenMore(n: Node, before: seq<Input>, e: Input)
    requires IntactRun(n, before) && FeedAll(n, before).commitIndex <= FeedAll(n, before).lastApplied
    requires AppliedIntact(FeedAll(n, before), e)
    ensures IntactRun(n, before + [e, Drained])
    ensures var m := FeedAll(n, before + [e, Drained]); m.commitIndex <= m.lastApplied
  {
    hide *;
    var inputs := before + [e, Drained];
    DrainedLast(n, inputs);
    PreservesLess(FeedAll(n, before), e);
    IntactMeans(n, before);
    forall k | 0 <= k < |inputs| ensures Intact(FeedAll(n, inputs[..k]), inputs[k]) {
      if k < |before| {
        assert inputs[..k] == before[..k] && inputs[k] == before[k];
      } else if k == |before| {
        assert inputs[..k] == before;
      } else {
        DrainIntact(FeedAll(n, inputs[..k]));
      }
    }
    IntactMeans(n, inputs);
  }

  lemma DrainedLast(n: Node, inputs: seq<Input>)
    requires inputs != [] && inputs[|inputs| - 1] == Drained
    ensures var m := FeedAll(n, inputs); m.commitIndex <= m.lastApplied
  {
    hide TakeReady;
    DrainCatchesUp(FeedAll(n, inputs[..|inputs| - 1]));
  }

  lemma IntactMeans(n: Node, inputs: seq<Input>)
    ensures IntactRun(n, inputs) <==> forall k :: 0 <= k < |inputs| ==> Intact(FeedAll(n, inputs[..k]), inputs[k])
  {
    hide Intact, FeedAll;
  }

  lemma DrainIntact(n: Node)
    ensures Intact(n, Drained)
  {
    hide Preserves;
  }

  lemma PreservesLess(n: Node, i: Input)
    requires n.commitIndex <= n.lastApplied && AppliedIntact(n, i)
    ensures Intact(n, i)
  {
    hide Accepts, Log.Splice, Log.Get;
  }

  /** Exactly once, in order, for a node that is drained after every event: it is enough that no snapshot
      is installed and no applied entry is overwritten. */
  lemma DrivenExactlyOnce(id: NodeId, peers: seq<NodeId>, config: Config, draw: nat, events: seq<Input>)
    requires var start := NewNode(id, peers, config, draw);
             forall k :: 0 <= k < |events| ==> AppliedIntact(FeedAll(start, Driven(events[..k])), events[k])
    ensures var start, inputs := NewNode(id, peers, config, draw), Driven(events);
            var n, l := FeedAll(start, inputs), WholeLog(start, inputs);
            Compacts(n.log, l) && n.lastApplied <= |l| && Outputs(start, inputs) == Emitted(l, n.lastApplied)
  {
    hide FeedAll, Outputs, WholeLog, Driven, AppliedIntact, IntactRun;
    DrivenIsIntact(NewNode(id, peers, config, draw), events);
    ExactlyOnceInOrder(id, peers, config, draw, Driven(events));
  }
}
