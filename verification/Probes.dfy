/** Which entries a leader may still ask a follower about. */
module Probes {
  import opened Basics
  import opened Messages
  import opened State
  import opened Logs
  import opened Nodes
  import opened Clusters
  import History

  /** Every next index, of peers and of strangers, is at least 1. */
  ghost predicate Positive(p: Progress) {
    forall v :: p.Next(v) >= 1
  }

  lemma OfficePositive(n: Node)
    ensures Positive(BecomeLeader(n).progress)
  {
    hide CommitPoint, Appends;
  }

  lemma TickPositive(n: Node, draw: nat)
    requires Positive(n.progress)
    ensures Positive(Tick(n, draw).progress)
  {
    hide BecomeLeader, Appends, VoteRequests, Positive;
    OfficePositive(StandForElection(n.(electionElapsed := n.electionElapsed + 1), draw));
  }

  lemma StepPositive(n: Node, from: NodeId, m: Message, draw: nat)
    requires Positive(n.progress)
    ensures Positive(Step(n, from, m, draw).progress)
  {
    hide BecomeLeader, CommitPoint, AppendFor, Log.Matches, Log.Splice, UpToDate, Positive;
    var h := Heed(n, m.term, draw);
    match m
    case RequestVoteReply(_, voter, _) => OfficePositive(h.(votes := h.votes + {voter}));
    case AppendEntriesReply(_, _, _, index, conflict) =>
      SetPositive(n.progress, from, index, index + 1);
      SetPositive(n.progress, from, n.progress.Matched(from), Max(conflict, 1));
    case InstallSnapshotReply(_, _) => SetPositive(n.progress, from, n.log.snapshotIndex, n.log.snapshotIndex + 1);
    case _ =>
  }

  lemma SetPositive(p: Progress, peer: NodeId, index: nat, next: nat)
    requires Positive(p) && next >= 1
    ensures Positive(p.SetMatch(peer, index).SetNext(peer, next)) && Positive(p.SetNext(peer, next))
  {
    forall v ensures p.SetNext(peer, next).Next(v) >= 1 && p.SetMatch(peer, index).SetNext(peer, next).Next(v) >= 1 {
      assert p.Next(v) >= 1;
    }
  }

  lemma ActedPositive(n: Node, e: Event)
    requires Positive(n.progress)
    ensures Positive(Acted(n, e).progress)
  {
    hide Tick, Step, CommitPoint, CommandsIn, Appends, Positive;
    match e
    case Ticks(_, draw) => TickPositive(n, draw);
    case Delivers(p, draw) => StepPositive(n, p.from, p.message, draw);
    case Proposes(_, _) =>
    case Drains(_, _) =>
  }

  /** At every moment of every run, every next index is at least 1, so that a probe can always go below it. */
  lemma {:induction false} NextAlwaysPositive(r: Run, i: nat, v: NodeId, peer: NodeId)
    requires IsRun(r) && i < |r.states| && v in r.states[i].nodes
    ensures r.states[i].nodes[v].progress.Next(peer) >= 1
  {
    hide IsRun;
    RunPositive(r, i, v);
  }

  lemma {:induction false} RunPositive(r: Run, i: nat, v: NodeId)
    requires IsRun(r) && i < |r.states| && v in r.states[i].nodes
    ensures Positive(r.states[i].nodes[v].progress)
    decreases i
  {
    hide Acted, After, Enabled;
    if i > 0 {
      hide Positive, Initial;
      var c, e := r.states[i - 1], r.events[i - 1];
      History.AfterNode(c, e, v);
      RunPositive(r, i - 1, v);
      if v == Actor(e) {
        ActedPositive(c.nodes[v], e);
      }
    }
  }

  /** A node that never compacted answers every need with entries: no run makes it ship a snapshot of
      nothing. */
  lemma UncompactedSendsEntries(r: Run, i: nat, v: NodeId, peer: NodeId)
    requires IsRun(r) && i < |r.states| && v in r.states[i].nodes && r.states[i].nodes[v].log.snapshotIndex == 0
    ensures AppendFor(r.states[i].nodes[v], peer).AppendEntries?
  {
    hide IsRun;
    NextAlwaysPositive(r, i, v, peer);
  }
}
