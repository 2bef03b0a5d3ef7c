/** The log, the leader's bookkeeping and the vote tally as objects updated in place. */
module RaftObjects {
  import opened Basics
  import opened Messages
  import opened State
  import opened Logs

  /** src/raft/log.rs */
  class RaftLog {
    var entries: seq<LogEntry>
    var snapshotIndex: nat
    var snapshotTerm: nat

    constructor ()
      ensures Value() == EMPTY_LOG
    {
      entries, snapshotIndex, snapshotTerm := [], 0, 0;
    }

    function Value(): Log
      reads this
    {
      Log(entries, snapshotIndex, snapshotTerm)
    }

    method Append(more: seq<LogEntry>) returns (last: nat)
      modifies this
      ensures Value() == old(Value()).Append(more) && last == Value().LastIndex()
    {
      entries := entries + more;
      last := Value().LastIndex();
    }

    method TruncateFrom(index: nat)
      modifies this
      ensures Value() == old(Value()).TruncateFrom(index)
    {
      if index <= snapshotIndex {
        entries := [];
        return;
      }
      var offset := index - snapshotIndex - 1;
      if offset <= |entries| {
        entries := entries[..offset];
      }
    }

    /** Skip what already agrees; at the first disagreement cut the log there, then extend it with
        whatever is left of the iterator. */
    method Splice(prevIndex: nat, incoming: seq<LogEntry>) returns (last: nat)
      modifies this
      ensures Value() == old(Value()).Splice(prevIndex, incoming) && last == Value().LastIndex()
    {
      var next: nat := prevIndex + 1;
      var k := 0;
      while k < |incoming|
        invariant k <= |incoming| && Value() == old(Value())
        invariant Value().SpliceAt(next, incoming[k..]) == old(Value()).Splice(prevIndex, incoming)
      {
        var entry := incoming[k];
        k := k + 1;
        assert incoming[k - 1..][1..] == incoming[k..];
        if Value().TermAt(next) == Some(entry.term) {
          next := next + 1;
        } else {
          TruncateFrom(next);
          entries := entries + [entry];
          assert incoming[k - 1..] == [entry] + incoming[k..];
          break;
        }
      }
      ghost var cut := entries;
      entries := entries + incoming[k..];
      assert k == |incoming| ==> entries == cut;
      last := Value().LastIndex();
    }

    method InstallSnapshot(lastIncludedIndex: nat, lastIncludedTerm: nat)
      modifies this
      ensures Value() == old(Value()).Install(lastIncludedIndex, lastIncludedTerm)
    {
      entries := [];
      snapshotIndex := lastIncludedIndex;
      snapshotTerm := lastIncludedTerm;
    }

    method Compact(index: nat)
      modifies this
      ensures Value() == old(Value()).Compact(index)
    {
      if index <= snapshotIndex || index > Value().LastIndex() {
        return;
      }
      var term := Value().TermAt(index).GetOr(snapshotTerm);
      entries := entries[index - snapshotIndex..];
      snapshotIndex := index;
      snapshotTerm := term;
    }
  }

  /** src/raft/state.rs, what a leader keeps for each follower. */
  class LeaderProgress {
    var nextIndex: map<NodeId, nat>
    var matchIndex: map<NodeId, nat>

    constructor ()
      ensures Value() == NO_PROGRESS
    {
      nextIndex, matchIndex := map[], map[];
    }

    function Value(): Progress
      reads this
    {
      Progress(nextIndex, matchIndex)
    }

    method Reset(peers: seq<NodeId>, lastLogIndex: nat)
      modifies this
      ensures Value() == FreshProgress(peers, lastLogIndex)
    {
      nextIndex, matchIndex := map[], map[];
      var k := 0;
      while k < |peers|
        invariant k <= |peers|
        invariant forall p :: p in nextIndex <==> p in peers[..k]
        invariant forall p :: p in matchIndex <==> p in peers[..k]
        invariant forall p :: p in nextIndex ==> nextIndex[p] == lastLogIndex + 1
        invariant forall p :: p in matchIndex ==> matchIndex[p] == 0
      {
        nextIndex := nextIndex[peers[k] := lastLogIndex + 1];
        matchIndex := matchIndex[peers[k] := 0];
        k := k + 1;
      }
      assert peers[..k] == peers;
    }

    method SetNextIndex(peer: NodeId, index: nat)
      modifies this
      ensures Value() == old(Value()).SetNext(peer, index)
    {
      nextIndex := nextIndex[peer := index];
    }

    method SetMatchIndex(peer: NodeId, index: nat)
      modifies this
      ensures Value() == old(Value()).SetMatch(peer, index)
    {
      matchIndex := matchIndex[peer := index];
    }
  }

  /** src/raft/state.rs, the votes received during a candidacy. */
  class VoteTally {
    var granted: set<NodeId>

    constructor ()
      ensures granted == {}
    {
      granted := {};
    }

    method Clear()
      modifies this
      ensures granted == {}
    {
      granted := {};
    }

    /** A repeated vote does not count twice. */
    method Record(voter: NodeId) returns (count: nat)
      modifies this
      ensures granted == old(granted) + {voter} && count == |granted|
      ensures count == if voter in old(granted) then |old(granted)| else |old(granted)| + 1
    {
      granted := granted + {voter};
      count := |granted|;
    }
  }
}
