/**
 * Votes and leadership, apart from logs. A booth is what the election rules of
 * one node depend on, plus the votes it has ever cast; the polls are all booths
 * plus every leadership that was ever won.
 */
module Election {
  import opened Basics
  import opened State

  /** `follows` holds from the moment the node accepts an append or a snapshot of its current term
      until its term changes. `cast` remembers the first candidate it backed in each term. */
  datatype Booth = Booth(term: nat, role: Role, votedFor: Option<NodeId>, follows: bool,
                         votes: set<NodeId>, cast: map<nat, NodeId>)

  datatype Crown = Crown(leader: NodeId, quorum: set<NodeId>)

  datatype Polls = Polls(booths: map<NodeId, Booth>, crowns: map<nat, Crown>)

  ghost predicate Voted(p: Polls, voter: NodeId, term: nat, candidate: NodeId) {
    voter in p.booths && term in p.booths[voter].cast && p.booths[voter].cast[term] == candidate
  }

  ghost predicate Backed(p: Polls, voters: set<NodeId>, term: nat, candidate: NodeId) {
    forall u :: u in voters ==> Voted(p, u, term, candidate)
  }

  ghost predicate BoothOk(p: Polls, v: NodeId)
    requires v in p.booths
  {
    var b := p.booths[v];
    && (forall t :: t in b.cast ==> t <= b.term)
    && (b.term in b.cast ==> b.follows || b.votedFor == Some(b.cast[b.term]))
    && (b.votedFor.Some? ==> Voted(p, v, b.term, b.votedFor.value))
    && (b.role.Candidate? ==> Backed(p, b.votes, b.term, v))
    && (b.role.Leader? ==> b.term in p.crowns && p.crowns[b.term].leader == v)
    && (b.follows ==> b.role.Follower?)
  }

  ghost predicate CrownOk(p: Polls, term: nat)
    requires term in p.crowns
  {
    && p.crowns[term].leader in p.booths && term <= p.booths[p.crowns[term].leader].term
    && Majority(p.booths.Keys, p.crowns[term].quorum)
    && Backed(p, p.crowns[term].quorum, term, p.crowns[term].leader)
  }

  ghost predicate Inv(p: Polls) {
    && (forall v :: v in p.booths ==> BoothOk(p, v))
    && (forall t :: t in p.crowns ==> CrownOk(p, t))
  }

  /** Nothing is ever forgotten: terms grow, votes and leaderships stay. */
  ghost predicate Extends(p: Polls, q: Polls) {
    && q.booths.Keys == p.booths.Keys
    && (forall u :: u in p.booths ==>
          p.booths[u].term <= q.booths[u].term && KeepsVotes(p.booths[u], q.booths[u]))
    && (forall t :: t in p.crowns ==> t in q.crowns && q.crowns[t] == p.crowns[t])
  }

  ghost predicate KeepsVotes(b: Booth, c: Booth) {
    forall t :: t in b.cast ==> t in c.cast && c.cast[t] == b.cast[t]
  }

  // ---- The moves of one node ----------------------------------------------

  /** A message of a higher term was seen. */
  function Adopt(b: Booth, term: nat): Booth {
    b.(term := term, role := Follower, votedFor := None, follows := false)
  }

  /** The election timer fired. */
  function Stand(b: Booth, self: NodeId): Booth {
    b.(term := b.term + 1, role := Candidate, votedFor := Some(self), follows := false,
       votes := {self}, cast := b.cast[b.term + 1 := self])
  }

  /** A vote was granted. */
  function Grant(b: Booth, candidate: NodeId): Booth {
    b.(votedFor := Some(candidate), cast := b.cast[b.term := candidate])
  }

  /** A granted vote arrived. */
  function Tally(b: Booth, voter: NodeId): Booth {
    b.(votes := b.votes + {voter})
  }

  function Win(b: Booth): Booth {
    b.(role := Leader)
  }

  /** An append or snapshot of the current term was accepted; the recorded vote is erased. */
  function Follow(b: Booth): Booth {
    b.(role := Follower, votedFor := None, follows := true)
  }

  function Revise(p: Polls, v: NodeId, b: Booth): Polls {
    p.(booths := p.booths[v := b])
  }

  // ---- Preservation --------------------------------------------------------

  lemma BackedStays(p: Polls, q: Polls, voters: set<NodeId>, term: nat, candidate: NodeId)
    requires Extends(p, q) && Backed(p, voters, term, candidate)
    ensures Backed(q, voters, term, candidate)
  {
    forall u | u in voters ensures Voted(q, u, term, candidate) {
      assert Voted(p, u, term, candidate);
    }
  }

  lemma BoothStays(p: Polls, q: Polls, v: NodeId)
    requires Extends(p, q) && v in p.booths && BoothOk(p, v) && q.booths[v] == p.booths[v]
    ensures BoothOk(q, v)
  {
    if p.booths[v].role.Candidate? {
      BackedStays(p, q, p.booths[v].votes, p.booths[v].term, v);
    }
  }

  lemma CrownsStay(p: Polls, q: Polls)
    requires Extends(p, q) && Inv(p)
    ensures forall t :: t in p.crowns ==> CrownOk(q, t)
  {
    forall t | t in p.crowns ensures CrownOk(q, t) {
      assert CrownOk(p, t);
      BackedStays(p, q, p.crowns[t].quorum, t, p.crowns[t].leader);
    }
  }

  /** Changing one booth keeps the invariant when that booth is fine afterwards. */
  lemma ReviseKeeps(p: Polls, v: NodeId, b: Booth)
    requires Inv(p) && v in p.booths
    requires p.booths[v].term <= b.term && KeepsVotes(p.booths[v], b)
    requires BoothOk(Revise(p, v, b), v)
    ensures Inv(Revise(p, v, b)) && Extends(p, Revise(p, v, b))
  {
    var q := Revise(p, v, b);
    assert q.booths.Keys == p.booths.Keys;
    CrownsStay(p, q);
    forall u | u in q.booths ensures BoothOk(q, u) {
      if u != v {
        BoothStays(p, q, u);
      }
    }
  }

  lemma AdoptKeeps(p: Polls, v: NodeId, term: nat)
    requires Inv(p) && v in p.booths && term > p.booths[v].term
    ensures Inv(Revise(p, v, Adopt(p.booths[v], term))) && Extends(p, Revise(p, v, Adopt(p.booths[v], term)))
  {
    assert BoothOk(p, v);
    ReviseKeeps(p, v, Adopt(p.booths[v], term));
  }

  lemma StandKeeps(p: Polls, v: NodeId)
    requires Inv(p) && v in p.booths
    ensures Inv(Revise(p, v, Stand(p.booths[v], v))) && Extends(p, Revise(p, v, Stand(p.booths[v], v)))
  {
    assert BoothOk(p, v);
    var q := Revise(p, v, Stand(p.booths[v], v));
    assert Voted(q, v, q.booths[v].term, v);
    ReviseKeeps(p, v, Stand(p.booths[v], v));
  }

  /** The guard of the vote handler, plus: the node follows nobody in this term. */
  lemma GrantKeeps(p: Polls, v: NodeId, candidate: NodeId)
    requires Inv(p) && v in p.booths && !p.booths[v].follows
    requires p.booths[v].votedFor.None? || p.booths[v].votedFor == Some(candidate)
    ensures Inv(Revise(p, v, Grant(p.booths[v], candidate)))
    ensures Extends(p, Revise(p, v, Grant(p.booths[v], candidate)))
  {
    var b := p.booths[v];
    assert BoothOk(p, v);
    var q := Revise(p, v, Grant(b, candidate));
    assert KeepsVotes(b, Grant(b, candidate));
    assert Extends(p, q) by {
      assert q.booths.Keys == p.booths.Keys;
    }
    if b.role.Candidate? {
      BackedStays(p, q, b.votes, b.term, v);
    }
    ReviseKeeps(p, v, Grant(b, candidate));
  }

  lemma TallyKeeps(p: Polls, v: NodeId, voter: NodeId)
    requires Inv(p) && v in p.booths && Voted(p, voter, p.booths[v].term, v)
    ensures Inv(Revise(p, v, Tally(p.booths[v], voter)))
    ensures Extends(p, Revise(p, v, Tally(p.booths[v], voter)))
  {
    var b := p.booths[v];
    assert BoothOk(p, v);
    var q := Revise(p, v, Tally(b, voter));
    assert Extends(p, q) by {
      assert q.booths.Keys == p.booths.Keys;
    }
    assert Voted(q, voter, b.term, v);
    if b.role.Candidate? {
      BackedStays(p, q, b.votes, b.term, v);
    }
    ReviseKeeps(p, v, Tally(b, voter));
  }

  lemma FollowKeeps(p: Polls, v: NodeId)
    requires Inv(p) && v in p.booths
    ensures Inv(Revise(p, v, Follow(p.booths[v]))) && Extends(p, Revise(p, v, Follow(p.booths[v])))
  {
    assert BoothOk(p, v);
    ReviseKeeps(p, v, Follow(p.booths[v]));
  }

  /** The crowns after `v` wins its current term; winning it twice changes nothing. */
  function Crowned(p: Polls, v: NodeId): map<nat, Crown>
    requires v in p.booths
  {
    var b := p.booths[v];
    if b.term in p.crowns then p.crowns else p.crowns[b.term := Crown(v, b.votes)]
  }

  lemma SameTermSameLeader(p: Polls, v: NodeId)
    requires Inv(p) && v in p.booths && p.booths[v].role.Candidate?
    requires Majority(p.booths.Keys, p.booths[v].votes) && p.booths[v].term in p.crowns
    ensures p.crowns[p.booths[v].term].leader == v
  {
    var b := p.booths[v];
    assert BoothOk(p, v) && CrownOk(p, b.term);
    var u := QuorumOverlap(p.booths.Keys, b.votes, p.crowns[b.term].quorum);
    assert Voted(p, u, b.term, v);
    assert Voted(p, u, b.term, p.crowns[b.term].leader);
  }

  /** Recording a leadership backed by a majority keeps the invariant. */
  lemma CrownKeeps(p: Polls, v: NodeId)
    requires Inv(p) && v in p.booths && p.booths[v].role.Candidate?
    requires Majority(p.booths.Keys, p.booths[v].votes) && p.booths[v].term !in p.crowns
    ensures Inv(p.(crowns := Crowned(p, v))) && Extends(p, p.(crowns := Crowned(p, v)))
  {
    var b := p.booths[v];
    var q := p.(crowns := Crowned(p, v));
    assert BoothOk(p, v);
    assert Extends(p, q);
    CrownsStay(p, q);
    BackedStays(p, q, b.votes, b.term, v);
    assert CrownOk(q, b.term);
    forall u | u in q.booths ensures BoothOk(q, u) {
      BoothStays(p, q, u);
    }
  }

  lemma ExtendsTransitive(p: Polls, q: Polls, r: Polls)
    requires Extends(p, q) && Extends(q, r)
    ensures Extends(p, r)
  {
    forall u | u in p.booths ensures KeepsVotes(p.booths[u], r.booths[u]) && p.booths[u].term <= r.booths[u].term {
      assert KeepsVotes(p.booths[u], q.booths[u]) && KeepsVotes(q.booths[u], r.booths[u]);
    }
  }

  lemma ReignKeeps(p: Polls, v: NodeId)
    requires Inv(p) && v in p.booths && p.booths[v].role.Candidate?
    requires p.booths[v].term in p.crowns && p.crowns[p.booths[v].term].leader == v
    ensures Inv(Revise(p, v, Win(p.booths[v]))) && Extends(p, Revise(p, v, Win(p.booths[v])))
  {
    assert BoothOk(p, v);
    ReviseKeeps(p, v, Win(p.booths[v]));
  }

  lemma WinKeeps(p: Polls, v: NodeId)
    requires Inv(p) && v in p.booths && p.booths[v].role.Candidate?
    requires Majority(p.booths.Keys, p.booths[v].votes)
    ensures Inv(Polls(p.booths[v := Win(p.booths[v])], Crowned(p, v)))
    ensures Extends(p, Polls(p.booths[v := Win(p.booths[v])], Crowned(p, v)))
  {
    var q := p.(crowns := Crowned(p, v));
    if p.booths[v].term in p.crowns {
      SameTermSameLeader(p, v);
      assert p == q;
      ReignKeeps(q, v);
    } else {
      CrownKeeps(p, v);
      ReignKeeps(q, v);
      ExtendsTransitive(p, q, Revise(q, v, Win(q.booths[v])));
    }
  }
}
