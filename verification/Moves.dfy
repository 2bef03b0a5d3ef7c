/** The moves of one node on the world, and why each keeps the invariant. */
module Moves {
  import opened Basics
  import opened Election
  import opened Worlds

  /** Node `v` ends up with booth `b` and peer record `p`; reigns and crowns stay. */
  function Move(w: World, v: NodeId, b: Booth, p: Peer): World {
    w.(polls := Revise(w.polls, v, b), peers := w.peers[v := p])
  }

  lemma InvFacts(w: World, v: NodeId)
    requires Worlds.Inv(w) && v in w.peers
    ensures v in w.polls.booths && PeerOk(w, v) && Shape(w) && Election.Inv(w.polls)
    ensures w.peers.Keys == w.polls.booths.Keys && w.reigns.Keys == w.polls.crowns.Keys
  {
  }

  lemma MoveFacts(w: World, v: NodeId, b: Booth, p: Peer)
    requires v in w.peers && v in w.polls.booths
    ensures var x := Move(w, v, b, p);
            && v in x.peers && x.peers[v] == p && v in x.polls.booths && x.polls.booths[v] == b
            && x.polls == Revise(w.polls, v, b) && x.polls.crowns == w.polls.crowns && x.reigns == w.reigns
            && x.peers.Keys == w.peers.Keys
  {
  }

  lemma BystanderMove(w: World, v: NodeId, b: Booth, p: Peer, u: NodeId)
    requires Shape(w) && v in w.peers && u in w.peers && u != v
    ensures PeerGrows(w, Move(w, v, b, p), u) && Untouched(w, Move(w, v, b, p), u)
  {
  }

  lemma MoveGrows(w: World, v: NodeId, b: Booth, p: Peer)
    requires Shape(w) && v in w.peers && Extends(w.polls, Revise(w.polls, v, b))
    requires PeerGrows(w, Move(w, v, b, p), v)
    ensures Grows(w, Move(w, v, b, p))
    ensures forall u :: u in w.peers && u != v ==> Untouched(w, Move(w, v, b, p), u)
  {
    hide PeerGrows, Untouched, Extends;
    var x := Move(w, v, b, p);
    assert x.peers.Keys == w.peers.Keys;
    forall u | u in w.peers && u != v ensures PeerGrows(w, x, u) && Untouched(w, x, u) {
      BystanderMove(w, v, b, p, u);
    }
  }

  lemma MoveKeeps(w: World, v: NodeId, b: Booth, p: Peer)
    requires Worlds.Inv(w) && v in w.peers
    requires Extends(w.polls, Revise(w.polls, v, b)) && Election.Inv(Revise(w.polls, v, b))
    requires PeerGrows(w, Move(w, v, b, p), v) && PeerOk(Move(w, v, b, p), v)
    ensures Worlds.Inv(Move(w, v, b, p)) && Grows(w, Move(w, v, b, p))
  {
    MoveGrows(w, v, b, p);
    Assemble(w, Move(w, v, b, p));
  }

  /** Everything but the role and the match indices is as it was, so only the role needs checking. */
  lemma QuietLocal(w: World, x: World, v: NodeId)
    requires Grows(w, x) && v in w.peers && PeerOk(w, v) && SameLog(w, x, v)
    requires x.peers[v].commit == w.peers[v].commit && x.polls.booths[v].cast == w.polls.booths[v].cast
    requires x.peers[v].ballots == w.peers[v].ballots && x.peers[v].stood == w.peers[v].stood
    requires RoleOk(x, v)
    ensures PeerOk(x, v)
  {
    hide LogOk, HistoryOk, RoleOk, KeepOk, BallotsKeepOk, AcksOk, PeerGrows, ReignsGrow;
    PeerFacts(w, v);
    LogStays(w, x, v);
    AcksStay(w, x, v);
    PastStays(w, x, v);
    KeepStays(w, x, v);
  }

  /** A move that leaves log, commit index, acknowledgements and past candidacies alone. */
  lemma QuietMove(w: World, v: NodeId, b: Booth, p: Peer)
    requires Worlds.Inv(w) && v in w.peers
    requires Extends(w.polls, Revise(w.polls, v, b)) && Election.Inv(Revise(w.polls, v, b))
    requires p == w.peers[v].(matched := p.matched) && b.cast == w.polls.booths[v].cast
    requires Grows(w, Move(w, v, b, p)) ==> RoleOk(Move(w, v, b, p), v)
    ensures Worlds.Inv(Move(w, v, b, p)) && Grows(w, Move(w, v, b, p))
  {
    hide *;
    InvFacts(w, v);
    MoveFacts(w, v, b, p);
    QuietGrows(w, v, b, p);
    MoveGrows(w, v, b, p);
    QuietLocal(w, Move(w, v, b, p), v);
    MoveKeeps(w, v, b, p);
  }

  lemma QuietGrows(w: World, v: NodeId, b: Booth, p: Peer)
    requires v in w.peers && v in w.polls.booths && p == w.peers[v].(matched := p.matched)
    ensures PeerGrows(w, Move(w, v, b, p), v) && SameLog(w, Move(w, v, b, p), v)
    ensures p.commit == w.peers[v].commit && p.ballots == w.peers[v].ballots && p.stood == w.peers[v].stood
  {
  }

  lemma PeerFacts(w: World, v: NodeId)
    requires v in w.peers && v in w.polls.booths && PeerOk(w, v)
    ensures LogOk(w, v) && HistoryOk(w, v) && AcksOk(w, v) && RoleOk(w, v) && KeepOk(w, v) && BallotsKeepOk(w, v)
  {
  }

  lemma TallyFacts(b: Booth, voter: NodeId)
    ensures Tally(b, voter).term == b.term && Tally(b, voter).role == b.role && Tally(b, voter).cast == b.cast
  {
  }

  /** A node that keeps its role, term and log keeps what its role promises. */
  lemma SameRole(w: World, x: World, v: NodeId)
    requires Grows(w, x) && v in w.peers && RoleOk(w, v) && x.polls.crowns == w.polls.crowns && x.reigns == w.reigns
    requires x.polls.booths[v].term == w.polls.booths[v].term && x.polls.booths[v].role == w.polls.booths[v].role
    requires x.peers[v].log == w.peers[v].log && x.peers[v].acked == w.peers[v].acked
    requires x.peers[v].stood == w.peers[v].stood && x.peers[v].matched == w.peers[v].matched
    ensures RoleOk(x, v)
  {
    var b, p := w.polls.booths[v], w.peers[v];
    if b.role.Leader? {
      forall u | u in p.matched && p.matched[u] != 0 ensures Acked(x, u, b.term, p.matched[u]) {
        AckedStays(w, x, u, b.term, p.matched[u]);
      }
    }
  }

  lemma AdoptMove(w: World, v: NodeId, term: nat)
    requires Worlds.Inv(w) && v in w.peers && term > w.polls.booths[v].term
    ensures Worlds.Inv(Move(w, v, Adopt(w.polls.booths[v], term), w.peers[v]))
    ensures Grows(w, Move(w, v, Adopt(w.polls.booths[v], term), w.peers[v]))
  {
    AdoptKeeps(w.polls, v, term);
    assert term in w.polls.crowns ==> CrownOk(w.polls, term);
    hide Grows, PeerOk, ReignOk, LeadOk, ChoiceOk;
    QuietMove(w, v, Adopt(w.polls.booths[v], term), w.peers[v]);
  }

  lemma TallyMove(w: World, v: NodeId, voter: NodeId)
    requires Worlds.Inv(w) && v in w.peers && Voted(w.polls, voter, w.polls.booths[v].term, v)
    ensures Worlds.Inv(Move(w, v, Tally(w.polls.booths[v], voter), w.peers[v]))
    ensures Grows(w, Move(w, v, Tally(w.polls.booths[v], voter), w.peers[v]))
  {
    hide *;
    InvFacts(w, v);
    var b := Tally(w.polls.booths[v], voter);
    TallyKeeps(w.polls, v, voter);
    MoveFacts(w, v, b, w.peers[v]);
    TallyFacts(w.polls.booths[v], voter);
    if Grows(w, Move(w, v, b, w.peers[v])) {
      PeerFacts(w, v);
      SameRole(w, Move(w, v, b, w.peers[v]), v);
    }
    QuietMove(w, v, b, w.peers[v]);
  }

  // ---- Voting --------------------------------------------------------------

  /** The peer record after `v` votes in term `term` with its present log. */
  function Balloted(p: Peer, term: nat): Peer {
    if term in p.ballots then p else p.(ballots := p.ballots[term := p.log])
  }

  /** Every ballot but the newest was fine before, and the newest holds the present log. */
  lemma BallotsMove(w: World, x: World, v: NodeId, term: nat)
    requires Grows(w, x) && v in w.peers && PeerOk(w, v) && SameLog(w, x, v)
    requires x.peers[v].ballots == Balloted(w.peers[v], term).ballots
    requires w.polls.booths[v].term <= term && term == x.polls.booths[v].term
    requires term in w.peers[v].ballots || BallotOk(x, v, term)
    ensures forall t :: t in x.peers[v].ballots ==> t <= term && BallotOk(x, v, t)
    ensures BallotsKeepOk(x, v)
  {
    KeepStays(w, x, v);
    forall t | t in x.peers[v].ballots ensures t <= term && BallotOk(x, v, t) && BallotKeeps(x, v, t) {
      if t in w.peers[v].ballots {
        BallotStays(w, x, v, t);
        BallotKeepsStays(w, x, v, t);
      }
    }
  }

  lemma VoteHistory(w: World, x: World, v: NodeId, term: nat)
    requires v in w.peers && v in x.peers && v in w.polls.booths && v in x.polls.booths
    requires HistoryOk(w, v) && AcksOk(x, v) && term == x.polls.booths[v].term
    requires forall t :: t in x.polls.booths[v].cast ==> t == term || t in w.polls.booths[v].cast
    requires x.peers[v].ballots == Balloted(w.peers[v], term).ballots
    requires forall t :: t in x.peers[v].stood ==> t <= term
    requires forall t :: t in x.peers[v].ballots ==> t <= term && BallotOk(x, v, t)
    ensures HistoryOk(x, v)
  {
    forall t | t in x.polls.booths[v].cast ensures t in x.peers[v].ballots {
    }
  }

  /** After voting in its (possibly new) term with its present log, a node is fine if its role is. */
  lemma VoteLocal(w: World, x: World, v: NodeId, term: nat)
    requires Grows(w, x) && v in w.peers && PeerOk(w, v) && SameLog(w, x, v)
    requires x.peers[v].commit == w.peers[v].commit
    requires w.polls.booths[v].term <= term && term == x.polls.booths[v].term
    requires forall t :: t in x.polls.booths[v].cast ==> t == term || t in w.polls.booths[v].cast
    requires x.peers[v].ballots == Balloted(w.peers[v], term).ballots
    requires forall t :: t in x.peers[v].stood ==> t <= term
    requires term in w.peers[v].ballots || BallotOk(x, v, term)
    requires RoleOk(x, v)
    ensures PeerOk(x, v)
  {
    LogStays(w, x, v);
    AcksStay(w, x, v);
    KeepStays(w, x, v);
    BallotsMove(w, x, v, term);
    VoteHistory(w, x, v, term);
  }

  function Stood(p: Peer, term: nat): Peer {
    Balloted(p, term).(stood := p.stood[term := p.log])
  }

  /** Casting a ballot, possibly standing as well, forgets nothing. */
  lemma VoteGrows(w: World, x: World, v: NodeId, term: nat)
    requires v in w.peers && v in x.peers && v in w.polls.booths
    requires || x.peers[v] == Balloted(w.peers[v], term)
             || (x.peers[v] == Stood(w.peers[v], term) && term !in w.peers[v].stood)
    ensures PeerGrows(w, x, v)
  {
  }

  lemma OwnBallot(w: World, x: World, v: NodeId)
    requires Grows(w, x) && v in w.peers && LogOk(w, v)
    requires x.polls.booths[v] == Stand(w.polls.booths[v], v)
    requires x.peers[v] == Stood(w.peers[v], x.polls.booths[v].term)
    requires x.polls.booths[v].term !in w.peers[v].ballots
    ensures BallotOk(x, v, x.polls.booths[v].term)
  {
    GroundedStays(w, x, w.peers[v].log);
  }

  lemma StoodStays(w: World, x: World, v: NodeId, term: nat)
    requires Grows(w, x) && v in w.peers && term in w.peers[v].stood
    ensures term in x.peers[v].stood && x.peers[v].stood[term] == w.peers[v].stood[term]
  {
    assert PeerGrows(w, x, v);
  }

  lemma CandidateRole(w: World, x: World, v: NodeId)
    requires v in w.peers && v in x.peers && v in w.polls.booths && v in x.polls.booths && LogOk(w, v)
    requires x.polls.booths[v] == Stand(w.polls.booths[v], v)
    requires x.peers[v] == Stood(w.peers[v], x.polls.booths[v].term)
    requires var t := x.polls.booths[v].term; t in x.polls.crowns ==> x.polls.crowns[t].leader != v
    ensures RoleOk(x, v)
  {
  }

  lemma StandLocal(w: World, x: World, v: NodeId)
    requires Grows(w, x) && v in w.peers && PeerOk(w, v)
    requires x.polls.booths[v] == Stand(w.polls.booths[v], v)
    requires x.peers[v] == Stood(w.peers[v], x.polls.booths[v].term)
    requires var t := x.polls.booths[v].term; t in x.polls.crowns ==> x.polls.crowns[t].leader != v
    ensures PeerOk(x, v)
  {
    hide LogOk, KeepOk, BallotsKeepOk, RoleOk, BallotOk, AcksOk, PeerGrows, ReignsGrow;
    OwnBallot(w, x, v);
    CandidateRole(w, x, v);
    VoteLocal(w, x, v, x.polls.booths[v].term);
  }

  lemma StandMove(w: World, v: NodeId)
    requires Worlds.Inv(w) && v in w.peers
    ensures var b := Stand(w.polls.booths[v], v);
            var x := Move(w, v, b, Stood(w.peers[v], b.term));
            Worlds.Inv(x) && Grows(w, x)
  {
    var b := Stand(w.polls.booths[v], v);
    var p := Stood(w.peers[v], b.term);
    var x := Move(w, v, b, p);
    assert PeerOk(w, v);
    StandKeeps(w.polls, v);
    VoteGrows(w, x, v, b.term);
    MoveGrows(w, v, b, p);
    assert b.term in x.polls.crowns ==> CrownOk(w.polls, b.term);
    StandLocal(w, x, v);
    MoveKeeps(w, v, b, p);
  }

  lemma GrantBallot(w: World, x: World, v: NodeId, candidate: NodeId)
    requires Grows(w, x) && v in w.peers && LogOk(w, v)
    requires x.polls.booths[v] == Grant(w.polls.booths[v], candidate)
    requires var t := w.polls.booths[v].term;
             && x.peers[v] == Balloted(w.peers[v], t) && t !in w.peers[v].ballots
             && candidate in x.peers && t in x.peers[candidate].stood
             && UpToDate(x.peers[candidate].stood[t], w.peers[v].log)
    ensures BallotOk(x, v, w.polls.booths[v].term)
  {
    GroundedStays(w, x, w.peers[v].log);
  }

  lemma GrantLocal(w: World, x: World, v: NodeId, candidate: NodeId)
    requires Grows(w, x) && v in w.peers && PeerOk(w, v) && x.polls.crowns == w.polls.crowns && x.reigns == w.reigns
    requires x.polls.booths[v] == Grant(w.polls.booths[v], candidate)
    requires var t := w.polls.booths[v].term;
             && x.peers[v] == Balloted(w.peers[v], t)
             && candidate in x.peers && t in x.peers[candidate].stood
             && UpToDate(x.peers[candidate].stood[t], w.peers[v].log)
    ensures PeerOk(x, v)
  {
    hide LogOk, KeepOk, BallotsKeepOk, RoleOk, BallotOk, AcksOk, PeerGrows, ReignsGrow;
    if w.polls.booths[v].term !in w.peers[v].ballots {
      GrantBallot(w, x, v, candidate);
    }
    SameRole(w, x, v);
    VoteLocal(w, x, v, w.polls.booths[v].term);
  }

  /** The vote handler grants its vote while the node follows nobody in this term. */
  lemma GrantMove(w: World, v: NodeId, candidate: NodeId)
    requires Worlds.Inv(w) && v in w.peers && !w.polls.booths[v].follows
    requires w.polls.booths[v].votedFor.None? || w.polls.booths[v].votedFor == Some(candidate)
    requires candidate in w.peers && w.polls.booths[v].term in w.peers[candidate].stood
    requires UpToDate(w.peers[candidate].stood[w.polls.booths[v].term], w.peers[v].log)
    ensures var t := w.polls.booths[v].term;
            var x := Move(w, v, Grant(w.polls.booths[v], candidate), Balloted(w.peers[v], t));
            Worlds.Inv(x) && Grows(w, x)
  {
    hide *;
    InvFacts(w, v);
    var b := Grant(w.polls.booths[v], candidate);
    var p := Balloted(w.peers[v], w.polls.booths[v].term);
    var x := Move(w, v, b, p);
    MoveFacts(w, v, b, p);
    GrantKeeps(w.polls, v, candidate);
    VoteGrows(w, x, v, w.polls.booths[v].term);
    MoveGrows(w, v, b, p);
    StoodStays(w, x, candidate, w.polls.booths[v].term);
    GrantLocal(w, x, v, candidate);
    MoveKeeps(w, v, b, p);
  }
}
