/**
 * Exactly-once, in-order application by one node, whatever it receives: as long
 * as no snapshot is installed and no committed entry is overwritten.
 */
module Applying {
  import opened Basics
  import opened Messages
  import opened Logs
  import opened Nodes
  import opened Splicing
  import opened Compaction
  import opened Emission
  import opened LeaderChain

  predicate AcceptedAppend(n: Node, i: Input) {
    i.Received? && Accepts(n, i.message)
  }

  /** The append leaves every entry up to `bound` as it is. */
  predicate Preserves(log: Log, m: Message, bound: nat)
    requires m.AppendEntries?
  {
    forall i: nat :: i <= bound && log.Get(i).Some? ==> log.Splice(m.prevLogIndex, m.entries).Get(i) == log.Get(i)
  }

  /** No snapshot is installed, and an accepted append overwrites no committed entry. */
  predicate Intact(n: Node, i: Input) {
    && (i.Received? && i.message.InstallSnapshot? ==> i.message.term < n.currentTerm)
    && (AcceptedAppend(n, i) ==> Preserves(n.log, i.message, n.commitIndex))
  }

  predicate IntactRun(n: Node, inputs: seq<Input>) {
    forall k :: 0 <= k < |inputs| ==> Intact(FeedAll(n, inputs[..k]), inputs[k])
  }

  /** What one input makes the node hand out. */
  function Output(n: Node, i: Input): seq<Committed> {
    if i.Drained? then TakeReady(n).1.committed else []
  }

  function Outputs(n: Node, inputs: seq<Input>): seq<Committed> {
    if inputs == [] then []
    else Outputs(n, inputs[..|inputs| - 1]) + Output(FeedAll(n, inputs[..|inputs| - 1]), inputs[|inputs| - 1])
  }

  /** The log as it would be had nothing ever been compacted: a leader's proposal adds its entry, an
      accepted append is spliced in, or put behind the snapshot point where the code misplaces it, and
      nothing else changes it. */
  function Grown(n: Node, l: FullLog, i: Input): FullLog {
    if i.Proposed? && n.role.Leader? then l + [LogEntry(n.currentTerm, i.command)]
    else if AcceptedAppend(n, i) then Landed(l, n.log, i.message.prevLogIndex, i.message.entries)
    else l
  }

  function Landed(l: FullLog, log: Log, prev: nat, entries: seq<LogEntry>): FullLog {
    if Misplaced(log, prev, entries) then l[..Min(log.snapshotIndex, |l|)] + entries else Spliced(l, prev, entries)
  }

  function WholeLog(n: Node, inputs: seq<Input>): FullLog {
    if inputs == [] then []
    else
      var rest := inputs[..|inputs| - 1];
      Grown(FeedAll(n, rest), WholeLog(n, rest), inputs[|inputs| - 1])
  }

  /** The node's log is `l` compacted, everything committed is in it, and `given` is exactly its commands
      up to the applied index. */
  predicate Exact(n: Node, l: FullLog, given: seq<Committed>) {
    Compacts(n.log, l) && n.commitIndex <= |l| && OutputOk(l, n, given)
  }

  /** The step leaves the applied range alone, and commits nothing beyond the end of the log. */
  predicate Quiet(n: Node, m: Node) {
    && m.lastApplied == n.lastApplied && m.committed == n.committed && m.log.snapshotIndex == n.log.snapshotIndex
    && (n.lastApplied <= n.commitIndex ==> m.lastApplied <= m.commitIndex)
    && (n.commitIndex <= m.log.LastIndex() ==> m.commitIndex <= m.log.LastIndex())
  }

  lemma QuietKeeps(n: Node, m: Node, l: FullLog, x: FullLog, given: seq<Committed>)
    requires Exact(n, l, given) && Quiet(n, m) && Compacts(m.log, x) && Agree(l, x, n.commitIndex)
    ensures Exact(m, x, given)
  {
    hide Compacts;
    LastAgrees(m.log, x);
    EmittedStays(l, x, n.lastApplied);
  }

  // ---- Inputs that leave the log alone -------------------------------------

  lemma TickQuiet(n: Node, draw: nat)
    ensures Quiet(n, Tick(n, draw)) && Tick(n, draw).log == n.log
  {
    hide Tick;
    TickSilent(n, draw);
    TickKeepsLog(n, draw);
  }

  /** The log is the same, and nothing beyond its end gets committed. */
  predicate SameLog(n: Node, m: Node) {
    m.log == n.log && (n.commitIndex <= n.log.LastIndex() ==> m.commitIndex <= n.log.LastIndex())
  }

  lemma AdvanceWithin(n: Node)
    ensures SameLog(n, AdvanceCommit(n))
  {
    hide CommitPoint;
    CommitPointIsGreatest(n, n.log.LastIndex());
  }

  lemma OfficeWithin(n: Node)
    ensures SameLog(n, BecomeLeader(n))
  {
    hide AdvanceCommit, AppendFor;
    AdvanceWithin(BroadcastAppend(TakeOffice(n)));
  }

  lemma TickKeepsLog(n: Node, draw: nat)
    ensures SameLog(n, Tick(n, draw))
  {
    hide BecomeLeader, AppendFor, VoteRequest;
    OfficeWithin(StandForElection(n.(electionElapsed := n.electionElapsed + 1), draw));
  }

  lemma StepKeepsLog(n: Node, from: NodeId, m: Message, draw: nat)
    requires !m.AppendEntries? && (m.InstallSnapshot? ==> m.term < n.currentTerm)
    ensures SameLog(n, Step(n, from, m, draw))
  {
    hide AdvanceCommit, BecomeLeader, AppendFor, UpToDate;
    var h := Heed(n, m.term, draw);
    if m.RequestVoteReply? {
      OfficeWithin(h.(votes := h.votes + {m.voterId}));
    } else if m.AppendEntriesReply? {
      AdvanceWithin(h.(progress := h.progress.SetMatch(from, m.matchIndex).SetNext(from, m.matchIndex + 1)));
    }
  }

  lemma StepQuiet(n: Node, from: NodeId, m: Message, draw: nat)
    requires !m.AppendEntries? && (m.InstallSnapshot? ==> m.term < n.currentTerm)
    ensures Quiet(n, Step(n, from, m, draw)) && Step(n, from, m, draw).log == n.log
  {
    hide Step;
    StepSilent(n, from, m, draw);
    StepKeepsLog(n, from, m, draw);
  }

  lemma ProposeQuiet(n: Node, command: Command)
    ensures var m := Propose(n, command).0;
            && Quiet(n, m)
            && m.log == if n.role.Leader? then n.log.Append([LogEntry(n.currentTerm, command)]) else n.log
  {
    hide AdvanceCommit, AppendFor;
    ProposeSilent(n, command);
    AdvanceWithin(BroadcastAppend(n.(log := n.log.Append([LogEntry(n.currentTerm, command)]))));
  }

  // ---- Appends -------------------------------------------------------------

  lemma AppendStep(n: Node, from: NodeId, m: Message, draw: nat)
    requires m.AppendEntries?
    ensures var a, s := m.term >= n.currentTerm && n.log.Matches(m.prevLogIndex, m.prevLogTerm), Step(n, from, m, draw);
            && s.lastApplied == n.lastApplied && s.committed == n.committed
            && s.currentTerm == Max(n.currentTerm, m.term)
            && s.log == (if a then n.log.Splice(m.prevLogIndex, m.entries) else n.log)
            && s.commitIndex ==
                 if a && m.leaderCommit > n.commitIndex then Min(m.leaderCommit, s.log.LastIndex()) else n.commitIndex
  {
    hide Log.Splice, Log.Matches, ConflictHint;
  }

  /** The node's log goes along with the log without compaction. */
  lemma LandedCompacts(log: Log, l: FullLog, prev: nat, term: nat, entries: seq<LogEntry>)
    requires Compacts(log, l) && log.Matches(prev, term)
    ensures Compacts(log.Splice(prev, entries), Landed(l, log, prev, entries))
  {
    hide Log.SpliceAt;
    if prev >= log.snapshotIndex {
      SpliceCompacts(log, l, prev, entries);
    } else {
      OnlyFromTheStart(log, prev, term);
      if entries == [] {
        NothingSpliced(log, prev);
        NothingSpliced(Plain(l), prev);
      } else if Misplaced(log, prev, entries) {
        MisplacedFromTheStart(log, entries);
      } else {
        MisplacedFromTheStart(log, entries);
        SpliceCompacts(log, l, 1, entries[1..]);
        SkipsFirst(l, entries);
      }
    }
  }

  lemma SkipsFirst(l: FullLog, entries: seq<LogEntry>)
    requires l != [] && entries != [] && l[0].term == entries[0].term
    ensures Spliced(l, 0, entries) == Spliced(l, 1, entries[1..])
  {
  }

  /** No append reaches below the snapshot point. */
  lemma LandedAbove(log: Log, l: FullLog, prev: nat, term: nat, entries: seq<LogEntry>)
    requires Compacts(log, l) && log.Matches(prev, term)
    ensures Agree(l, Landed(l, log, prev, entries), log.snapshotIndex)
  {
    hide Spliced, Log.Matches;
    if prev >= log.snapshotIndex {
      MatchBound(log, prev, term);
      LastAgrees(log, l);
      var k := SplicedShape(l, prev, entries);
    } else {
      OnlyFromTheStart(log, prev, term);
      if !Misplaced(log, prev, entries) {
        var k := SplicedShape(l, prev, entries);
      }
    }
  }

  lemma GetIs(log: Log, l: FullLog, i: nat)
    requires Compacts(log, l) && log.snapshotIndex < i <= |l|
    ensures log.Get(i) == Some(l[i - 1])
  {
  }

  /** What an append preserves of the node's log it preserves of the log without compaction. */
  lemma LandedAgrees(log: Log, l: FullLog, m: Message, bound: nat)
    requires m.AppendEntries? && Compacts(log, l) && log.Matches(m.prevLogIndex, m.prevLogTerm)
    requires Preserves(log, m, bound) && bound <= |l|
    ensures Agree(l, Landed(l, log, m.prevLogIndex, m.entries), bound)
  {
    hide Landed, Log.Matches, Log.Splice, Log.Get, Compacts;
    var x, s := Landed(l, log, m.prevLogIndex, m.entries), log.Splice(m.prevLogIndex, m.entries);
    LandedCompacts(log, l, m.prevLogIndex, m.prevLogTerm, m.entries);
    LandedAbove(log, l, m.prevLogIndex, m.prevLogTerm, m.entries);
    SpliceKeepsPoint(log, m.prevLogIndex, m.entries);
    forall j: nat | log.snapshotIndex <= j < bound ensures j < |x| && l[j] == x[j] {
      GetIs(log, l, j + 1);
      assert s.Get(j + 1) == log.Get(j + 1);
      GetWithin(s, x, j + 1);
    }
    assert bound > log.snapshotIndex ==> l[bound - 1] in l;
  }

  lemma GetWithin(log: Log, l: FullLog, i: nat)
    requires Compacts(log, l) && log.Get(i).Some?
    ensures log.snapshotIndex < i <= |l| && log.Get(i) == Some(l[i - 1])
  {
  }

  lemma AcceptedExact(n: Node, i: Input, l: FullLog, given: seq<Committed>)
    requires Exact(n, l, given) && Intact(n, i) && AcceptedAppend(n, i)
    ensures Exact(Feed(n, i), Grown(n, l, i), given)
  {
    hide Step, Log.Matches, Log.Splice, Compacts, Landed, Preserves;
    var m := i.message;
    var x := Landed(l, n.log, m.prevLogIndex, m.entries);
    LandedCompacts(n.log, l, m.prevLogIndex, m.prevLogTerm, m.entries);
    LandedAgrees(n.log, l, m, n.commitIndex);
    SpliceKeepsPoint(n.log, m.prevLogIndex, m.entries);
    AppendStep(n, i.from, m, i.draw);
    LastAgrees(Feed(n, i).log, x);
    QuietKeeps(n, Feed(n, i), l, x, given);
  }

  lemma Extended(l: FullLog, more: seq<LogEntry>, k: nat)
    requires k <= |l|
    ensures Agree(l, l + more, k) && Agree(l, l, k) && Plain(l).Append(more).entries == l + more
  {
  }

  /** Any one input. */
  lemma FeedExact(n: Node, i: Input, l: FullLog, given: seq<Committed>)
    requires Exact(n, l, given) && Intact(n, i)
    ensures Exact(Feed(n, i), Grown(n, l, i), given + Output(n, i))
  {
    hide Tick, Step, Propose, TakeReady, Compacts, Log.Append, Log.Matches, Log.Splice, Landed, Preserves;
    assert given + [] == given;
    Extended(l, [], n.commitIndex);
    match i
    case Ticked(draw) =>
      TickQuiet(n, draw);
      QuietKeeps(n, Feed(n, i), l, l, given);
    case Proposed(command) =>
      var more := [LogEntry(n.currentTerm, command)];
      ProposeQuiet(n, command);
      AppendAgrees(n.log, l, more);
      Extended(l, more, n.commitIndex);
      QuietKeeps(n, Feed(n, i), l, Grown(n, l, i), given);
    case Drained =>
      LastAgrees(n.log, l);
      DrainEmits(l, n, given);
    case Received(from, m, draw) =>
      if AcceptedAppend(n, i) {
        AcceptedExact(n, i, l, given);
      } else {
        if m.AppendEntries? {
          AppendStep(n, from, m, draw);
        } else {
          StepQuiet(n, from, m, draw);
        }
        QuietKeeps(n, Feed(n, i), l, l, given);
      }
  }

  lemma {:induction false} RunExact(n: Node, inputs: seq<Input>)
    requires Exact(n, [], []) && IntactRun(n, inputs)
    ensures Exact(FeedAll(n, inputs), WholeLog(n, inputs), Outputs(n, inputs))
    decreases |inputs|
  {
    hide Exact, Intact, Feed, Output, Grown;
    if inputs != [] {
      var last := |inputs| - 1;
      var rest := inputs[..last];
      forall k | 0 <= k < |rest| ensures Intact(FeedAll(n, rest[..k]), rest[k]) {
        assert rest[..k] == inputs[..k] && rest[k] == inputs[k];
      }
      RunExact(n, rest);
      FeedExact(FeedAll(n, rest), inputs[last], WholeLog(n, rest), Outputs(n, rest));
    }
  }

  /** Exactly once, in order: from a fresh node on, everything the drains hand out, put together, is the
      non-empty commands at indices 1 to the applied index of the log as it would be without
      compaction, however compaction interleaves. */
  lemma ExactlyOnceInOrder(id: NodeId, peers: seq<NodeId>, config: Config, draw: nat, inputs: seq<Input>)
    requires IntactRun(NewNode(id, peers, config, draw), inputs)
    ensures var start := NewNode(id, peers, config, draw);
            var n, l := FeedAll(start, inputs), WholeLog(start, inputs);
            Compacts(n.log, l) && n.lastApplied <= |l| && Outputs(start, inputs) == Emitted(l, n.lastApplied)
  {
    hide FeedAll, Outputs, IntactRun, WholeLog;
    RunExact(NewNode(id, peers, config, draw), inputs);
  }
}
