/** Roles and the per-role bookkeeping of src/raft/state.rs, as values. */
module State {
  import opened Basics

  datatype Role = Follower | Candidate | Leader

  /** What a leader knows about each peer. */
  datatype Progress = Progress(nextIndex: map<NodeId, nat>, matchIndex: map<NodeId, nat>) {

    function Next(peer: NodeId): nat {
      if peer in nextIndex then nextIndex[peer] else 1
    }

    function Matched(peer: NodeId): nat {
      if peer in matchIndex then matchIndex[peer] else 0
    }

    function SetNext(peer: NodeId, index: nat): Progress {
      this.(nextIndex := nextIndex[peer := index])
    }

    function SetMatch(peer: NodeId, index: nat): Progress {
      this.(matchIndex := matchIndex[peer := index])
    }
  }

  const NO_PROGRESS := Progress(map[], map[])

  /** Optimistic next index, pessimistic match index. */
  function FreshProgress(peers: seq<NodeId>, lastLogIndex: nat): Progress {
    Progress(map p | p in peers :: lastLogIndex + 1, map p | p in peers :: 0)
  }
}
