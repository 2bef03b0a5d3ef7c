/**
 * The cluster as the safety argument sees it: full, never compacted logs and
 * what each node promised in the past.
 *
 * A reign is the log of the leader of one term: `base` is what it held when it
 * was elected, `log` everything it has held since. An acknowledgement
 * `acked[t] == k` says the node told the leader of term `t` that it stores the
 * first `k` entries of that reign.
 */
module Worlds {
  import opened Basics
  import opened Logs
  import opened Election

  datatype Peer = Peer(log: FullLog, commit: nat, matched: map<NodeId, nat>,
                       stood: map<nat, FullLog>, ballots: map<nat, FullLog>, acked: map<nat, nat>)

  datatype Reign = Reign(base: FullLog, log: FullLog)

  /** `term`'s leader declared the first `index` entries of its log committed. */
  datatype Choice = Choice(term: nat, index: nat)

  datatype World = World(polls: Polls, peers: map<NodeId, Peer>, reigns: map<nat, Reign>, chosen: set<Choice>)

  // ---- Logs ----------------------------------------------------------------

  function LastTerm(l: FullLog): nat {
    if l == [] then 0 else l[|l| - 1].term
  }

  ghost predicate Sorted(l: FullLog) {
    forall i, j :: 0 <= i <= j < |l| ==> l[i].term <= l[j].term
  }

  ghost predicate Below(l: FullLog, term: nat) {
    forall j :: 0 <= j < |l| ==> l[j].term < term
  }

  /** Every entry comes, with everything before it, from the reign of its term. This is log matching. */
  ghost predicate Grounded(reigns: map<nat, Reign>, l: FullLog) {
    forall j :: 0 <= j < |l| ==> l[j].term in reigns && Agree(l, reigns[l[j].term].log, j + 1)
  }

  /** Section 5.4.1 of the Raft paper: the candidate's log is at least as up to date. */
  ghost predicate UpToDate(candidate: FullLog, voter: FullLog) {
    || LastTerm(candidate) > LastTerm(voter)
    || (LastTerm(candidate) == LastTerm(voter) && |candidate| >= |voter|)
  }

  // ---- Promises ------------------------------------------------------------

  ghost predicate Acked(w: World, v: NodeId, term: nat, index: nat) {
    v in w.peers && term in w.peers[v].acked && index <= w.peers[v].acked[term]
  }

  /** Index `index` of the reign of `term` was created in that very term. */
  ghost predicate Entry(w: World, term: nat, index: nat) {
    term in w.reigns && 1 <= index <= |w.reigns[term].log| && w.reigns[term].log[index - 1].term == term
  }

  /** The nodes of majority `r` have left `term` without acknowledging `index`. */
  ghost predicate DeadBy(w: World, term: nat, index: nat, r: set<NodeId>) {
    && Majority(w.peers.Keys, r)
    && forall u :: u in r ==> u in w.polls.booths && w.polls.booths[u].term > term && !Acked(w, u, term, index)
  }

  /** `index` of the reign of `term` can never again be acknowledged by a majority. */
  ghost predicate Dead(w: World, term: nat, index: nat) {
    exists r :: DeadBy(w, term, index, r)
  }

  /** `l` holds the reign of `term` up to `index`, unless that index is beyond hope. */
  ghost predicate Safe(w: World, l: FullLog, term: nat, index: nat) {
    || (term in w.reigns && Agree(l, w.reigns[term].log, index))
    || Dead(w, term, index)
  }

  ghost predicate ChosenBy(w: World, c: Choice, q: set<NodeId>) {
    Majority(w.peers.Keys, q) && forall u :: u in q ==> Acked(w, u, c.term, c.index)
  }

  ghost predicate ChoiceOk(w: World, c: Choice) {
    Entry(w, c.term, c.index) && exists q :: ChosenBy(w, c, q)
  }

  /** Choice `c` of term at most `term` covers the first `k` entries of `l`. */
  ghost predicate Covers(w: World, c: Choice, term: nat, l: FullLog, k: nat) {
    && c in w.chosen && c.term <= term && k <= c.index
    && c.term in w.reigns && Agree(l, w.reigns[c.term].log, k)
  }

  ghost predicate CommitOk(w: World, term: nat, l: FullLog, k: nat) {
    k == 0 || exists c :: Covers(w, c, term, l, k)
  }

  // ---- The invariant -------------------------------------------------------

  ghost predicate ReignOk(w: World, term: nat)
    requires term in w.reigns
  {
    var r := w.reigns[term];
    && term >= 1
    && Agree(r.log, r.base, |r.base|) && Below(r.base, term)
    && (forall j :: |r.base| <= j < |r.log| ==> r.log[j].term == term)
    && Sorted(r.log) && Grounded(w.reigns, r.log)
  }

  /** Every later leader starts from a log that is safe for every earlier entry. */
  ghost predicate LeadOk(w: World, later: nat)
    requires later in w.reigns
  {
    forall t: nat, i: nat :: t < later && Entry(w, t, i) ==> Safe(w, w.reigns[later].base, t, i)
  }

  ghost predicate LogOk(w: World, v: NodeId)
    requires v in w.peers && v in w.polls.booths
  {
    var l := w.peers[v].log;
    && Sorted(l) && Grounded(w.reigns, l) && Below(l, w.polls.booths[v].term + 1)
    && CommitOk(w, w.polls.booths[v].term, l, w.peers[v].commit)
  }

  ghost predicate BallotOk(w: World, v: NodeId, term: nat)
    requires v in w.peers && v in w.polls.booths && term in w.peers[v].ballots
  {
    && Sorted(w.peers[v].ballots[term]) && Grounded(w.reigns, w.peers[v].ballots[term])
    && term in w.polls.booths[v].cast
    && var c := w.polls.booths[v].cast[term];
    && c in w.peers && term in w.peers[c].stood && UpToDate(w.peers[c].stood[term], w.peers[v].ballots[term])
  }

  ghost predicate HistoryOk(w: World, v: NodeId)
    requires v in w.peers && v in w.polls.booths
  {
    var p, b := w.peers[v], w.polls.booths[v];
    && (forall t :: t in p.stood ==> t <= b.term)
    && (forall t :: t in b.cast ==> t in p.ballots)
    && (forall t :: t in p.ballots ==> t <= b.term && BallotOk(w, v, t))
    && AcksOk(w, v)
  }

  ghost predicate AcksOk(w: World, v: NodeId)
    requires v in w.peers && v in w.polls.booths
  {
    var p, b := w.peers[v], w.polls.booths[v];
    && (forall t :: t in p.acked ==> t <= b.term && t in w.reigns && p.acked[t] <= |w.reigns[t].log|)
    && (b.term in p.acked ==> Agree(p.log, w.reigns[b.term].log, p.acked[b.term]))
  }

  ghost predicate RoleOk(w: World, v: NodeId)
    requires v in w.peers && v in w.polls.booths
  {
    var p, b := w.peers[v], w.polls.booths[v];
    match b.role
    case Leader =>
      && b.term in w.reigns && w.reigns[b.term].log == p.log
      && b.term in p.acked && p.acked[b.term] == |p.log|
      && (forall u :: u in p.matched ==> p.matched[u] == 0 || Acked(w, u, b.term, p.matched[u]))
    case Candidate =>
      && b.term >= 1 && b.term in p.stood && p.stood[b.term] == p.log && Below(p.log, b.term)
      && (b.term in w.polls.crowns ==> w.polls.crowns[b.term].leader != v)
    case Follower =>
      b.term in w.polls.crowns ==> w.polls.crowns[b.term].leader != v
  }

  /** What a node acknowledged is still in its log, unless that no longer matters. */
  ghost predicate KeepOk(w: World, v: NodeId)
    requires v in w.peers
  {
    forall t: nat, i: nat :: Acked(w, v, t, i) && Entry(w, t, i) ==> Safe(w, w.peers[v].log, t, i)
  }

  /** ... and was in its log whenever it voted in a later term. */
  ghost predicate BallotKeeps(w: World, v: NodeId, later: nat)
    requires v in w.peers && later in w.peers[v].ballots
  {
    forall t: nat, i: nat :: t < later && Acked(w, v, t, i) && Entry(w, t, i) ==>
      Safe(w, w.peers[v].ballots[later], t, i)
  }

  ghost predicate BallotsKeepOk(w: World, v: NodeId)
    requires v in w.peers
  {
    forall u :: u in w.peers[v].ballots ==> BallotKeeps(w, v, u)
  }

  ghost predicate PeerOk(w: World, v: NodeId)
    requires v in w.peers && v in w.polls.booths
  {
    LogOk(w, v) && HistoryOk(w, v) && RoleOk(w, v) && KeepOk(w, v) && BallotsKeepOk(w, v)
  }

  ghost predicate Shape(w: World) {
    && w.peers.Keys == w.polls.booths.Keys
    && w.reigns.Keys == w.polls.crowns.Keys
  }

  ghost predicate Inv(w: World) {
    && Shape(w) && Election.Inv(w.polls)
    && (forall t :: t in w.reigns ==> ReignOk(w, t) && LeadOk(w, t))
    && (forall c :: c in w.chosen ==> ChoiceOk(w, c))
    && (forall v :: v in w.peers ==> PeerOk(w, v))
  }

  // ---- Growth --------------------------------------------------------------

  ghost predicate PeerGrows(w: World, x: World, v: NodeId)
    requires v in w.peers && v in x.peers && v in w.polls.booths
  {
    var p, q := w.peers[v], x.peers[v];
    && (forall t :: t in p.stood ==> t in q.stood && q.stood[t] == p.stood[t])
    && (forall t :: t in p.ballots ==> t in q.ballots && q.ballots[t] == p.ballots[t])
    && (forall t :: t in p.acked ==> t in q.acked && p.acked[t] <= q.acked[t])
    && (forall t :: t in q.acked && t < w.polls.booths[v].term ==> t in p.acked && p.acked[t] == q.acked[t])
  }

  ghost predicate ReignsGrow(w: World, x: World) {
    forall t :: t in w.reigns ==>
      && t in x.reigns && x.reigns[t].base == w.reigns[t].base
      && Agree(w.reigns[t].log, x.reigns[t].log, |w.reigns[t].log|)
  }

  /** The past is never rewritten, and a node acknowledges nothing in terms it has left. */
  ghost predicate Grows(w: World, x: World) {
    && Shape(w) && Shape(x) && Extends(w.polls, x.polls)
    && (forall v :: v in w.peers ==> PeerGrows(w, x, v))
    && ReignsGrow(w, x)
    && w.chosen <= x.chosen
  }

  lemma AckedStays(w: World, x: World, v: NodeId, term: nat, index: nat)
    requires Grows(w, x) && Acked(w, v, term, index)
    ensures Acked(x, v, term, index)
  {
    assert PeerGrows(w, x, v);
  }

  lemma DeadStays(w: World, x: World, term: nat, index: nat)
    requires Grows(w, x) && Dead(w, term, index)
    ensures Dead(x, term, index)
  {
    var r :| DeadBy(w, term, index, r);
    forall u | u in r
      ensures u in x.polls.booths && x.polls.booths[u].term > term && !Acked(x, u, term, index)
    {
      assert PeerGrows(w, x, u);
      assert !Acked(w, u, term, index);
    }
    assert DeadBy(x, term, index, r);
  }

  lemma SafeStays(w: World, x: World, l: FullLog, term: nat, index: nat)
    requires Grows(w, x) && Entry(w, term, index) && Safe(w, l, term, index)
    ensures Safe(x, l, term, index) && Entry(x, term, index)
  {
    assert Agree(w.reigns[term].log, x.reigns[term].log, |w.reigns[term].log|);
    if Dead(w, term, index) {
      DeadStays(w, x, term, index);
    }
  }

  lemma GroundedStays(w: World, x: World, l: FullLog)
    requires ReignsGrow(w, x) && Grounded(w.reigns, l)
    ensures Grounded(x.reigns, l)
  {
  }

  lemma ChoiceStays(w: World, x: World, c: Choice)
    requires Grows(w, x) && ChoiceOk(w, c)
    ensures ChoiceOk(x, c)
  {
    assert Agree(w.reigns[c.term].log, x.reigns[c.term].log, |w.reigns[c.term].log|);
    var q :| ChosenBy(w, c, q);
    forall u | u in q ensures Acked(x, u, c.term, c.index) {
      AckedStays(w, x, u, c.term, c.index);
    }
    assert ChosenBy(x, c, q);
  }

  lemma CommitStays(w: World, x: World, term: nat, l: FullLog, k: nat)
    requires Grows(w, x) && CommitOk(w, term, l, k)
    ensures CommitOk(x, term, l, k)
  {
    if k > 0 {
      var c :| Covers(w, c, term, l, k);
      assert Agree(w.reigns[c.term].log, x.reigns[c.term].log, |w.reigns[c.term].log|);
      assert Covers(x, c, term, l, k);
    }
  }

  /** A node that did not move, whose own reign did not change, is as fine as before. */
  ghost predicate Untouched(w: World, x: World, v: NodeId) {
    && v in w.peers && v in x.peers && x.peers[v] == w.peers[v]
    && v in w.polls.booths && v in x.polls.booths && x.polls.booths[v] == w.polls.booths[v]
    && var t := w.polls.booths[v].term;
    && (w.polls.booths[v].role.Leader? && t in w.reigns ==> t in x.reigns && x.reigns[t].log == w.reigns[t].log)
    && (t in x.polls.crowns && x.polls.crowns[t].leader == v ==> t in w.polls.crowns && w.polls.crowns[t].leader == v)
  }

  /** The node kept its log and its acknowledgements. */
  ghost predicate SameLog(w: World, x: World, v: NodeId) {
    && v in w.peers && v in x.peers
    && x.peers[v].log == w.peers[v].log && x.peers[v].acked == w.peers[v].acked
  }

  lemma LogStays(w: World, x: World, v: NodeId)
    requires Grows(w, x) && SameLog(w, x, v) && x.peers[v].commit == w.peers[v].commit && LogOk(w, v)
    ensures LogOk(x, v)
  {
    var s, t := w.polls.booths[v].term, x.polls.booths[v].term;
    GroundedStays(w, x, w.peers[v].log);
    CommitStays(w, x, s, w.peers[v].log, w.peers[v].commit);
    LaterCommit(x, s, t, w.peers[v].log, w.peers[v].commit);
  }

  lemma LaterCommit(w: World, s: nat, t: nat, l: FullLog, k: nat)
    requires s <= t && CommitOk(w, s, l, k)
    ensures CommitOk(w, t, l, k)
  {
    if k > 0 {
      var c :| Covers(w, c, s, l, k);
      assert Covers(w, c, t, l, k);
    }
  }

  lemma BallotStays(w: World, x: World, v: NodeId, term: nat)
    requires Grows(w, x) && v in w.peers && term in w.peers[v].ballots && BallotOk(w, v, term)
    requires term in x.peers[v].ballots && x.peers[v].ballots[term] == w.peers[v].ballots[term]
    ensures BallotOk(x, v, term)
  {
    GroundedStays(w, x, w.peers[v].ballots[term]);
    assert KeepsVotes(w.polls.booths[v], x.polls.booths[v]);
    var c := w.polls.booths[v].cast[term];
    assert PeerGrows(w, x, c);
  }

  lemma AcksStay(w: World, x: World, v: NodeId)
    requires ReignsGrow(w, x) && SameLog(w, x, v)
    requires v in w.polls.booths && v in x.polls.booths && w.polls.booths[v].term <= x.polls.booths[v].term
    requires AcksOk(w, v)
    ensures AcksOk(x, v)
  {
  }

  lemma RoleStays(w: World, x: World, v: NodeId)
    requires Grows(w, x) && Untouched(w, x, v) && RoleOk(w, v)
    ensures RoleOk(x, v)
  {
    var p, b := w.peers[v], w.polls.booths[v];
    if b.role.Leader? {
      forall u | u in p.matched && p.matched[u] != 0 ensures Acked(x, u, b.term, p.matched[u]) {
        AckedStays(w, x, u, b.term, p.matched[u]);
      }
    }
  }

  /** An acknowledged index is old, so its entry did not appear just now. */
  lemma OldEntry(w: World, x: World, v: NodeId, term: nat, index: nat)
    requires ReignsGrow(w, x) && v in w.peers && v in w.polls.booths && AcksOk(w, v)
    requires Acked(w, v, term, index) && Entry(x, term, index)
    ensures Entry(w, term, index)
  {
    assert Agree(w.reigns[term].log, x.reigns[term].log, |w.reigns[term].log|);
  }

  lemma KeepStays(w: World, x: World, v: NodeId)
    requires Grows(w, x) && SameLog(w, x, v) && AcksOk(w, v) && KeepOk(w, v)
    ensures KeepOk(x, v)
  {
    forall t, i | Acked(x, v, t, i) && Entry(x, t, i) ensures Safe(x, x.peers[v].log, t, i) {
      assert Acked(w, v, t, i);
      OldEntry(w, x, v, t, i);
      SafeStays(w, x, w.peers[v].log, t, i);
    }
  }

  lemma BallotKeepsStays(w: World, x: World, v: NodeId, later: nat)
    requires Grows(w, x) && v in w.peers && v in x.peers && AcksOk(w, v)
    requires later in w.peers[v].ballots && BallotKeeps(w, v, later) && later <= w.polls.booths[v].term
    requires later in x.peers[v].ballots && x.peers[v].ballots[later] == w.peers[v].ballots[later]
    ensures BallotKeeps(x, v, later)
  {
    forall t: nat, i: nat | t < later && Acked(x, v, t, i) && Entry(x, t, i)
      ensures Safe(x, x.peers[v].ballots[later], t, i)
    {
      assert PeerGrows(w, x, v);
      assert Acked(w, v, t, i);
      OldEntry(w, x, v, t, i);
      SafeStays(w, x, w.peers[v].ballots[later], t, i);
    }
  }

  /** Votes and candidacies of the past stay fine as long as the acknowledgements do. */
  lemma PastStays(w: World, x: World, v: NodeId)
    requires Grows(w, x) && v in w.peers && v in x.peers && HistoryOk(w, v) && BallotsKeepOk(w, v)
    requires x.polls.booths[v].cast == w.polls.booths[v].cast
    requires x.peers[v].ballots == w.peers[v].ballots && x.peers[v].stood == w.peers[v].stood
    requires AcksOk(x, v)
    ensures HistoryOk(x, v) && BallotsKeepOk(x, v)
  {
    hide AcksOk, BallotOk, BallotKeeps, PeerGrows, ReignsGrow;
    forall t | t in x.peers[v].ballots ensures BallotOk(x, v, t) && BallotKeeps(x, v, t) {
      BallotStays(w, x, v, t);
      BallotKeepsStays(w, x, v, t);
    }
  }

  lemma PeerStays(w: World, x: World, v: NodeId)
    requires Grows(w, x) && Untouched(w, x, v) && PeerOk(w, v)
    ensures PeerOk(x, v)
  {
    LogStays(w, x, v);
    AcksStay(w, x, v);
    PastStays(w, x, v);
    RoleStays(w, x, v);
    KeepStays(w, x, v);
  }

  lemma ReignStays(w: World, x: World, term: nat)
    requires Grows(w, x) && term in w.reigns && x.reigns == w.reigns && ReignOk(w, term) && LeadOk(w, term)
    ensures ReignOk(x, term) && LeadOk(x, term)
  {
    forall t: nat, i: nat | t < term && Entry(x, t, i) ensures Safe(x, x.reigns[term].base, t, i) {
      assert Entry(w, t, i);
      SafeStays(w, x, w.reigns[term].base, t, i);
    }
  }

  lemma ReignsStay(w: World, x: World)
    requires Inv(w) && Grows(w, x) && x.reigns == w.reigns
    ensures forall t :: t in x.reigns ==> ReignOk(x, t) && LeadOk(x, t)
  {
    assert forall t :: t in w.reigns ==> ReignOk(w, t) && LeadOk(w, t);
    forall t | t in x.reigns ensures ReignOk(x, t) && LeadOk(x, t) {
      ReignStays(w, x, t);
    }
  }

  lemma PeersStay(w: World, x: World)
    requires Inv(w) && Grows(w, x)
    requires forall u :: u in w.peers ==> Untouched(w, x, u) || PeerOk(x, u)
    ensures forall u :: u in x.peers ==> PeerOk(x, u)
  {
    hide Untouched, Election.Inv, ReignOk, LeadOk, ChoiceOk, PeerOk, PeerGrows, ReignsGrow;
    forall u | u in x.peers ensures PeerOk(x, u) {
      if Untouched(w, x, u) {
        PeerStays(w, x, u);
      }
    }
  }

  lemma ChoicesStay(w: World, x: World)
    requires Inv(w) && Grows(w, x)
    requires forall c :: c in x.chosen && c !in w.chosen ==> ChoiceOk(x, c)
    ensures forall c :: c in x.chosen ==> ChoiceOk(x, c)
  {
    forall c | c in x.chosen ensures ChoiceOk(x, c) {
      if c in w.chosen {
        ChoiceStays(w, x, c);
      }
    }
  }

  /** The reigns are unchanged: only the nodes that moved need checking. */
  lemma Assemble(w: World, x: World)
    requires Inv(w) && Grows(w, x) && Election.Inv(x.polls) && x.reigns == w.reigns
    requires forall u :: u in w.peers ==> Untouched(w, x, u) || PeerOk(x, u)
    requires forall c :: c in x.chosen && c !in w.chosen ==> ChoiceOk(x, c)
    ensures Inv(x)
  {
    hide Untouched, Election.Inv, ReignOk, LeadOk, ChoiceOk, PeerOk, PeerGrows, ReignsGrow, Extends;
    ReignsStay(w, x);
    ChoicesStay(w, x);
    PeersStay(w, x);
  }
}
