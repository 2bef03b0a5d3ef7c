/** Acknowledging, committing and absorbing a leader's entries. */
module Commitment {
  import opened Basics
  import opened Logs
  import opened Election
  import opened Worlds
  import opened Moves

  /** What a majority acknowledged stays acknowledged: it is never beyond hope. */
  lemma ChosenIsAlive(w: World, c: Choice)
    requires ChoiceOk(w, c)
    ensures !Dead(w, c.term, c.index)
  {
    var q :| ChosenBy(w, c, q);
    if Dead(w, c.term, c.index) {
      var r :| DeadBy(w, c.term, c.index, r);
      var u := QuorumOverlap(w.peers.Keys, q, r);
      assert false;
    }
  }

  /** Leader completeness: the leader of every later term holds what an earlier leader committed. */
  lemma LeaderCompleteness(w: World, c: Choice, term: nat)
    requires Worlds.Inv(w) && c in w.chosen && term in w.reigns && c.term <= term
    ensures Entry(w, c.term, c.index)
    ensures Agree(w.reigns[term].log, w.reigns[c.term].log, c.index)
    ensures c.term < term ==> Agree(w.reigns[term].base, w.reigns[c.term].log, c.index)
  {
    hide Election.Inv, PeerOk;
    assert ChoiceOk(w, c) && LeadOk(w, term) && ReignOk(w, term);
    if c.term < term {
      ChosenIsAlive(w, c);
      assert Safe(w, w.reigns[term].base, c.term, c.index);
    }
  }

  /** Two commitments never disagree. */
  lemma ChoicesAgree(w: World, c: Choice, d: Choice, k: nat)
    requires Worlds.Inv(w) && c in w.chosen && d in w.chosen && k <= c.index && k <= d.index
    ensures c.term in w.reigns && d.term in w.reigns && Agree(w.reigns[c.term].log, w.reigns[d.term].log, k)
  {
    assert ChoiceOk(w, c) && ChoiceOk(w, d);
    if c.term <= d.term {
      LeaderCompleteness(w, c, d.term);
    } else {
      LeaderCompleteness(w, d, c.term);
    }
  }

  // ---- A leader records a reply and commits --------------------------------

  function Credited(p: Peer, u: NodeId, k: nat): Peer {
    p.(matched := p.matched[u := k])
  }

  lemma CreditRole(w: World, x: World, v: NodeId, u: NodeId, k: nat)
    requires Grows(w, x) && v in w.peers && RoleOk(w, v) && w.polls.booths[v].role.Leader?
    requires x.polls == w.polls && x.reigns == w.reigns
    requires x.peers[v] == Credited(w.peers[v], u, k) && (k == 0 || Acked(w, u, w.polls.booths[v].term, k))
    ensures RoleOk(x, v)
  {
    var b, p := w.polls.booths[v], x.peers[v];
    forall o | o in p.matched && p.matched[o] != 0 ensures Acked(x, o, b.term, p.matched[o]) {
      AckedStays(w, x, o, b.term, p.matched[o]);
    }
  }

  lemma SamePolls(p: Polls, v: NodeId)
    requires v in p.booths
    ensures Revise(p, v, p.booths[v]) == p && Extends(p, p)
  {
    assert p.booths[v := p.booths[v]] == p.booths;
  }

  lemma CreditMove(w: World, v: NodeId, u: NodeId, k: nat)
    requires Worlds.Inv(w) && v in w.peers && w.polls.booths[v].role.Leader?
    requires k == 0 || Acked(w, u, w.polls.booths[v].term, k)
    ensures var x := Move(w, v, w.polls.booths[v], Credited(w.peers[v], u, k));
            Worlds.Inv(x) && Grows(w, x)
  {
    hide *;
    InvFacts(w, v);
    PeerFacts(w, v);
    SamePolls(w.polls, v);
    var p := Credited(w.peers[v], u, k);
    CreditedFacts(w.peers[v], u, k);
    var x := Move(w, v, w.polls.booths[v], p);
    MoveFacts(w, v, w.polls.booths[v], p);
    if Grows(w, x) {
      CreditRole(w, x, v, u, k);
    }
    QuietMove(w, v, w.polls.booths[v], p);
  }

  lemma CreditedFacts(p: Peer, u: NodeId, k: nat)
    ensures Credited(p, u, k) == p.(matched := Credited(p, u, k).matched)
  {
  }

  /** A majority acknowledged an entry of this term: it is chosen for good. */
  lemma ChooseMove(w: World, c: Choice)
    requires Worlds.Inv(w) && ChoiceOk(w, c)
    ensures Worlds.Inv(w.(chosen := w.chosen + {c})) && Grows(w, w.(chosen := w.chosen + {c}))
  {
    hide Untouched, ReignOk, LeadOk, ChoiceOk, PeerOk, PeerGrows, Extends, Grows;
    var x := w.(chosen := w.chosen + {c});
    ChooseGrows(w, c);
    ChoiceStays(w, x, c);
    Assemble(w, x);
  }

  lemma ChooseGrows(w: World, c: Choice)
    requires Shape(w)
    ensures Grows(w, w.(chosen := w.chosen + {c}))
    ensures forall u :: u in w.peers ==> Untouched(w, w.(chosen := w.chosen + {c}), u)
  {
  }

  /** Moving the commit index over entries known to be chosen. */
  lemma SettleLocal(w: World, x: World, v: NodeId, k: nat)
    requires Grows(w, x) && v in w.peers && PeerOk(w, v) && x.polls == w.polls && x.reigns == w.reigns
    requires x.peers[v] == w.peers[v].(commit := k) && CommitOk(w, w.polls.booths[v].term, w.peers[v].log, k)
    ensures PeerOk(x, v)
  {
    hide HistoryOk, RoleOk, KeepOk, BallotsKeepOk, AcksOk, CommitOk, Grounded, PeerGrows, ReignsGrow;
    PeerFacts(w, v);
    CommitStays(w, x, w.polls.booths[v].term, w.peers[v].log, k);
    GroundedStays(w, x, w.peers[v].log);
    AcksStay(w, x, v);
    PastStays(w, x, v);
    KeepStays(w, x, v);
    SameRole(w, x, v);
  }

  lemma SettleMove(w: World, v: NodeId, k: nat)
    requires Worlds.Inv(w) && v in w.peers && CommitOk(w, w.polls.booths[v].term, w.peers[v].log, k)
    ensures var x := Move(w, v, w.polls.booths[v], w.peers[v].(commit := k));
            Worlds.Inv(x) && Grows(w, x)
  {
    hide *;
    InvFacts(w, v);
    SamePolls(w.polls, v);
    var b, p := w.polls.booths[v], w.peers[v].(commit := k);
    MoveFacts(w, v, b, p);
    SettleGrows(w, Move(w, v, b, p), v, k);
    MoveGrows(w, v, b, p);
    SettleLocal(w, Move(w, v, b, p), v, k);
    MoveKeeps(w, v, b, p);
  }

  lemma SettleGrows(w: World, x: World, v: NodeId, k: nat)
    requires v in w.peers && v in x.peers && v in w.polls.booths && x.peers[v] == w.peers[v].(commit := k)
    ensures PeerGrows(w, x, v)
  {
  }

  // ---- A follower defers to a leader ---------------------------------------

  lemma FollowMove(w: World, v: NodeId)
    requires Worlds.Inv(w) && v in w.peers
    requires var t := w.polls.booths[v].term; t in w.polls.crowns ==> w.polls.crowns[t].leader != v
    ensures var x := Move(w, v, Follow(w.polls.booths[v]), w.peers[v]);
            Worlds.Inv(x) && Grows(w, x)
  {
    hide Grows, PeerOk, ReignOk, LeadOk, ChoiceOk, Extends, Election.Inv, BoothOk, CrownOk;
    FollowKeeps(w.polls, v);
    QuietMove(w, v, Follow(w.polls.booths[v]), w.peers[v]);
  }

  /** The peer record after taking over the first `|l|` entries of the leader of `term`. */
  function Absorbed(p: Peer, term: nat, l: FullLog): Peer {
    p.(log := l, acked := p.acked[term := |l|])
  }

  /** `l` is a prefix of the reign `m` that keeps whatever `before` already shared with `m`. */
  ghost predicate Improves(before: FullLog, l: FullLog, m: FullLog) {
    Agree(l, m, |l|) && forall i: nat :: Agree(before, m, i) ==> Agree(l, m, i)
  }

  lemma PrefixIsSound(w: World, term: nat, l: FullLog)
    requires term in w.reigns && ReignOk(w, term) && Agree(l, w.reigns[term].log, |l|)
    ensures Sorted(l) && Grounded(w.reigns, l) && Below(l, term + 1)
  {
    var r := w.reigns[term];
    forall j | 0 <= j < |l| ensures l[j].term in w.reigns && Agree(l, w.reigns[l[j].term].log, j + 1) {
      assert Agree(r.log, w.reigns[r.log[j].term].log, j + 1);
    }
    forall j | 0 <= j < |l| ensures l[j].term < term + 1 {
      if j < |r.base| {
        assert r.log[j] == r.base[j];
      }
    }
  }

  lemma AgreeTransitive(a: FullLog, b: FullLog, c: FullLog, k: nat)
    requires Agree(a, b, k) && Agree(b, c, k)
    ensures Agree(a, c, k)
  {
  }

  /** What was committed in an old log survives absorbing a leader's entries. */
  lemma AbsorbCommit(w: World, term: nat, before: FullLog, l: FullLog, k: nat)
    requires Worlds.Inv(w) && term in w.reigns && CommitOk(w, term, before, k)
    requires Improves(before, l, w.reigns[term].log)
    ensures CommitOk(w, term, l, k)
  {
    if k > 0 {
      var c :| Covers(w, c, term, before, k);
      var m := w.reigns[term].log;
      hide Worlds.Inv;
      LeaderCompleteness(w, c, term);
      assert Agree(m, w.reigns[c.term].log, k);
      assert Agree(before, m, k);
      assert Agree(l, m, k);
      assert Covers(w, c, term, l, k);
    }
  }

  /** What a node acknowledged to an earlier leader survives as well. */
  lemma AbsorbKeeps(w: World, v: NodeId, term: nat, l: FullLog, t: nat, i: nat)
    requires v in w.peers && KeepOk(w, v) && term in w.reigns && LeadOk(w, term) && ReignOk(w, term)
    requires Improves(w.peers[v].log, l, w.reigns[term].log)
    requires t < term && Acked(w, v, t, i) && Entry(w, t, i)
    ensures Safe(w, l, t, i)
  {
    if !Dead(w, t, i) {
      var r, e := w.reigns[term], w.reigns[t].log;
      assert Safe(w, w.peers[v].log, t, i) && Safe(w, r.base, t, i);
      assert Agree(r.log, e, i);
      assert Agree(w.peers[v].log, r.log, i);
      AgreeTransitive(l, r.log, e, i);
    }
  }

  lemma AbsorbKeepOk(w: World, x: World, v: NodeId, term: nat)
    requires Grows(w, x) && x.reigns == w.reigns && term in w.reigns && v in w.peers && v in x.peers
    requires KeepOk(w, v) && AcksOk(w, v) && LeadOk(w, term) && ReignOk(w, term)
    requires term == w.polls.booths[v].term && x.peers[v] == Absorbed(w.peers[v], term, x.peers[v].log)
    requires Improves(w.peers[v].log, x.peers[v].log, w.reigns[term].log)
    ensures KeepOk(x, v)
  {
    var l := x.peers[v].log;
    forall t: nat, i: nat | Acked(x, v, t, i) && Entry(x, t, i) ensures Safe(x, l, t, i) {
      assert Entry(w, t, i);
      if t == term {
        assert Agree(l, x.reigns[t].log, i);
      } else {
        assert Acked(w, v, t, i);
        AbsorbKeeps(w, v, term, l, t, i);
        SafeStays(w, x, l, t, i);
      }
    }
  }

  lemma AbsorbGrows(w: World, x: World, v: NodeId, term: nat, l: FullLog)
    requires v in w.peers && v in x.peers && v in w.polls.booths && term == w.polls.booths[v].term
    requires x.peers[v] == Absorbed(w.peers[v], term, l)
    requires term in w.peers[v].acked ==> w.peers[v].acked[term] <= |l|
    ensures PeerGrows(w, x, v)
  {
  }

  lemma AbsorbAcks(w: World, x: World, v: NodeId, term: nat)
    requires v in w.peers && v in x.peers && v in w.polls.booths && term in w.reigns
    requires x.reigns == w.reigns && x.polls == w.polls && AcksOk(w, v) && term == w.polls.booths[v].term
    requires x.peers[v] == Absorbed(w.peers[v], term, x.peers[v].log)
    requires Agree(x.peers[v].log, w.reigns[term].log, |x.peers[v].log|)
    ensures AcksOk(x, v)
  {
  }

  lemma AbsorbLocal(w: World, x: World, v: NodeId, term: nat)
    requires Worlds.Inv(w) && v in w.peers && v in x.peers
    requires Grows(w, x) && x.reigns == w.reigns && x.polls == w.polls
    requires term in w.reigns && term == w.polls.booths[v].term && w.polls.booths[v].role.Follower?
    requires x.peers[v] == Absorbed(w.peers[v], term, x.peers[v].log)
    requires Improves(w.peers[v].log, x.peers[v].log, w.reigns[term].log)
    ensures PeerOk(x, v)
  {
    hide Grows, Improves, KeepOk, BallotsKeepOk, HistoryOk, AcksOk, LeadOk, ReignOk, ChoiceOk, Election.Inv,
      Sorted, Grounded, Below, CommitOk;
    assert PeerOk(w, v) && AcksOk(w, v) by { InvFacts(w, v); PeerFacts(w, v); }
    ImprovesFacts(w.peers[v].log, x.peers[v].log, w.reigns[term].log);
    PrefixIsSound(w, term, x.peers[v].log);
    AbsorbCommit(w, term, w.peers[v].log, x.peers[v].log, w.peers[v].commit);
    CommitStays(w, x, term, x.peers[v].log, w.peers[v].commit);
    AbsorbAcks(w, x, v, term);
    PastStays(w, x, v);
    AbsorbKeepOk(w, x, v, term);
  }

  lemma ImprovesFacts(before: FullLog, l: FullLog, m: FullLog)
    requires Improves(before, l, m)
    ensures Agree(l, m, |l|)
    ensures forall i: nat :: Agree(before, m, i) ==> i <= |l|
  {
  }

  /** A follower replaces its log by a longer agreement with its leader and acknowledges all of it. */
  lemma AbsorbMove(w: World, v: NodeId, l: FullLog)
    requires Worlds.Inv(w) && v in w.peers && w.polls.booths[v].role.Follower?
    requires w.polls.booths[v].term in w.reigns
    requires Improves(w.peers[v].log, l, w.reigns[w.polls.booths[v].term].log)
    ensures var x := Move(w, v, w.polls.booths[v], Absorbed(w.peers[v], w.polls.booths[v].term, l));
            Worlds.Inv(x) && Grows(w, x)
  {
    hide *;
    InvFacts(w, v);
    PeerFacts(w, v);
    SamePolls(w.polls, v);
    var b := w.polls.booths[v];
    var p := Absorbed(w.peers[v], b.term, l);
    var x := Move(w, v, b, p);
    MoveFacts(w, v, b, p);
    AbsorbedFacts(w, v, l);
    AbsorbGrows(w, x, v, b.term, l);
    MoveGrows(w, v, b, p);
    AbsorbLocal(w, x, v, b.term);
    MoveKeeps(w, v, b, p);
  }

  lemma AbsorbedFacts(w: World, v: NodeId, l: FullLog)
    requires v in w.peers && v in w.polls.booths && AcksOk(w, v) && w.polls.booths[v].term in w.reigns
    requires Improves(w.peers[v].log, l, w.reigns[w.polls.booths[v].term].log)
    ensures Absorbed(w.peers[v], w.polls.booths[v].term, l).log == l
    ensures var t := w.polls.booths[v].term; t in w.peers[v].acked ==> w.peers[v].acked[t] <= |l|
  {
  }
}
