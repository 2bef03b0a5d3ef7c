/**
 * Catching up through a snapshot: a leader whose log no longer has what a follower
 * needs ships a snapshot and goes on from there. This works exactly if the log's
 * last term, which the snapshot is labelled with, is the term of the snapshot
 * point (src/raft/node.rs).
 */
module CatchUp {
  import opened Basics
  import opened Messages
  import opened Logs
  import opened Nodes
  import opened Repair

  /** The timeout drawn in a round and the store listing a snapshot is filled with. */
  datatype Turn = Turn(draw: nat, data: seq<KeyValue>)

  /** The leader's message reaches the follower, and an answer to the leader reaches it. */
  function Talk(p: Pair, t: Turn): Pair {
    var a := Step(p.follower, p.leader.id, Filled(AppendFor(p.leader, p.follower.id), t.data), t.draw);
    if a.outgoing == [] || Newest(a.outgoing).to != p.leader.id then p.(follower := a)
    else Pair(Step(p.leader, p.follower.id, Newest(a.outgoing).message, t.draw), a)
  }

  function TalkAll(p: Pair, turns: seq<Turn>): Pair {
    if turns == [] then p else Talk(TalkAll(p, turns[..|turns| - 1]), turns[|turns| - 1])
  }

  /** The follower, of no later term, needs something the leader has compacted away. */
  predicate Behind(p: Pair) {
    && p.leader.role.Leader? && p.follower.currentTerm <= p.leader.currentTerm
    && p.leader.progress.Next(p.follower.id) <= p.leader.log.snapshotIndex
  }

  /** The follower has installed the leader's snapshot and nothing more, and the leader knows it. */
  predicate AtSnapshot(p: Pair, log: Log, id: NodeId) {
    && p.leader.role.Leader? && p.follower.currentTerm == p.leader.currentTerm && p.follower.id == id
    && p.leader.log == log && p.follower.log == Log([], log.snapshotIndex, log.LastTerm())
    && p.leader.progress.Next(id) == log.snapshotIndex + 1
  }

  /** The follower has the leader's log, and the leader knows it. */
  predicate CaughtUp(p: Pair, log: Log, id: NodeId) {
    && p.leader.log == log == p.follower.log && p.follower.id == id
    && p.leader.progress.Matched(id) == log.LastIndex() && p.leader.progress.Next(id) == log.LastIndex() + 1
  }

  /** The snapshot arrives, is installed and acknowledged, and the ack moves the leader on. */
  lemma SnapshotTaken(p: Pair, t: Turn)
    requires Behind(p)
    ensures var q := Talk(p, t);
            && AtSnapshot(q, p.leader.log, p.follower.id)
            && q.follower.commitIndex == q.follower.lastApplied == p.leader.log.snapshotIndex
            && q.follower.committed == p.follower.committed + [Snapshot(t.data)]
            && q.leader.progress.Matched(p.follower.id) == p.leader.log.snapshotIndex
  {
    hide Log.LastTerm;
    var m := Filled(AppendFor(p.leader, p.follower.id), t.data);
    var s := p.leader.log.snapshotIndex;
    assert m == InstallSnapshot(p.leader.currentTerm, p.leader.id, s, p.leader.log.LastTerm(), t.data);
    var a := Step(p.follower, p.leader.id, m, t.draw);
    var reply := InstallSnapshotReply(p.leader.currentTerm, p.follower.id);
    assert Newest(a.outgoing) == Envelope(p.leader.id, reply);
    SnapshotAcked(p.leader, p.follower.id, reply, t.draw);
  }

  lemma SnapshotAcked(leader: Node, from: NodeId, m: Message, draw: nat)
    requires leader.role.Leader? && m.InstallSnapshotReply? && m.term == leader.currentTerm
    ensures var l := Step(leader, from, m, draw);
            && l.role == leader.role && l.log == leader.log && l.currentTerm == leader.currentTerm && l.id == leader.id
            && l.progress.Matched(from) == leader.log.snapshotIndex
            && l.progress.Next(from) == leader.log.snapshotIndex + 1
  {
  }

  /** What the leader sends next. */
  lemma NextAppend(p: Pair, log: Log, id: NodeId)
    requires AtSnapshot(p, log, id)
    ensures AppendFor(p.leader, id) ==
              AppendEntries(p.leader.currentTerm, p.leader.id, log.snapshotIndex, log.snapshotTerm, log.entries,
                            p.leader.commitIndex)
  {
    assert log.entries[0..] == log.entries;
  }

  /** With the right label everything after the snapshot is taken over ... */
  lemma RestTaken(p: Pair, t: Turn, log: Log, id: NodeId)
    requires AtSnapshot(p, log, id) && log.LastTerm() == log.snapshotTerm
    ensures CaughtUp(Talk(p, t), log, id)
  {
    hide AppendFor, CommitPoint;
    NextAppend(p, log, id);
    assert [] + log.entries == log.entries;
    var m := AppendFor(p.leader, id);
    assert p.follower.log.Splice(m.prevLogIndex, m.entries) == log;
    var a := Step(p.follower, p.leader.id, m, t.draw);
    assert Newest(a.outgoing) ==
             Envelope(p.leader.id, AppendEntriesReply(p.leader.currentTerm, id, true, log.LastIndex(), 0));
    SuccessHandled(p.leader, id, log.LastIndex(), t.draw);
  }

  /** ... and with the wrong one it is rejected, and both are where they were. */
  lemma RestRejected(p: Pair, t: Turn, log: Log, id: NodeId)
    requires AtSnapshot(p, log, id) && log.LastTerm() != log.snapshotTerm
    ensures AtSnapshot(Talk(p, t), log, id)
  {
    hide AppendFor, Log.Splice, Log.LastTerm;
    NextAppend(p, log, id);
    var m := AppendFor(p.leader, id);
    assert !p.follower.log.Matches(m.prevLogIndex, m.prevLogTerm);
    var a := Step(p.follower, p.leader.id, m, t.draw);
    assert Newest(a.outgoing) ==
             Envelope(p.leader.id, AppendEntriesReply(p.leader.currentTerm, id, false, 0, log.snapshotIndex + 1));
    RejectionHandled(p.leader, id, log.snapshotIndex + 1, t.draw);
  }

  lemma {:induction false} NeverCatchesUp(p: Pair, turns: seq<Turn>)
    requires Behind(p) && p.leader.log.LastTerm() != p.leader.log.snapshotTerm && turns != []
    ensures AtSnapshot(TalkAll(p, turns), p.leader.log, p.follower.id)
  {
    hide Talk, Behind, AtSnapshot, Log.LastTerm;
    var last := |turns| - 1;
    if last == 0 {
      assert TalkAll(p, turns[..0]) == p;
      SnapshotTaken(p, turns[0]);
    } else {
      NeverCatchesUp(p, turns[..last]);
      RestRejected(TalkAll(p, turns[..last]), turns[last], p.leader.log, p.follower.id);
    }
  }

  lemma CatchesUpInTwo(p: Pair, turns: seq<Turn>)
    requires Behind(p) && p.leader.log.LastTerm() == p.leader.log.snapshotTerm && |turns| == 2
    ensures CaughtUp(TalkAll(p, turns), p.leader.log, p.follower.id)
  {
    hide Talk, AtSnapshot, CaughtUp, Log.LastTerm;
    assert turns[..1][..0] == [] && TalkAll(p, turns[..1]) == Talk(p, turns[0]);
    SnapshotTaken(p, turns[0]);
    RestTaken(Talk(p, turns[0]), turns[1], p.leader.log, p.follower.id);
  }

  /** Catching up through a snapshot, exactly: two rounds bring the follower to the leader's log if and only
      if the log's last term is the term of the snapshot point; otherwise no number of rounds brings it
      anything but the snapshot. */
  lemma CatchUpExactly(p: Pair, turns: seq<Turn>)
    requires Behind(p) && |turns| >= 2
    ensures var log, id := p.leader.log, p.follower.id;
            && (CaughtUp(TalkAll(p, turns[..2]), log, id) <==> log.LastTerm() == log.snapshotTerm)
            && (log.LastTerm() != log.snapshotTerm ==> AtSnapshot(TalkAll(p, turns), log, id) && log.entries != [])
  {
    hide TalkAll, Behind;
    if p.leader.log.LastTerm() == p.leader.log.snapshotTerm {
      CatchesUpInTwo(p, turns[..2]);
    } else {
      NeverCatchesUp(p, turns[..2]);
      NeverCatchesUp(p, turns);
    }
  }
}
