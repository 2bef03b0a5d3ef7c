/** Winning an election and appending as leader. */
module Leadership {
  import opened Basics
  import opened Messages
  import opened Logs
  import opened Election
  import opened Worlds
  import opened Moves
  import opened Commitment

  // ---- Winning -------------------------------------------------------------

  /** The candidate `v` becomes the leader of its term, knowing nothing about its peers. */
  function Elected(w: World, v: NodeId, nothing: map<NodeId, nat>): World
    requires v in w.peers && v in w.polls.booths
  {
    var b, p := w.polls.booths[v], w.peers[v];
    World(Polls(w.polls.booths[v := Win(b)], Crowned(w.polls, v)),
          w.peers[v := p.(matched := nothing, acked := p.acked[b.term := |p.log|])],
          w.reigns[b.term := Reign(p.log, p.log)],
          w.chosen)
  }

  /** `v` is a candidate backed by a majority. */
  ghost predicate Winning(w: World, v: NodeId) {
    && v in w.peers && v in w.polls.booths && w.polls.booths[v].role.Candidate?
    && Majority(w.peers.Keys, w.polls.booths[v].votes)
  }

  lemma FreshTerm(w: World, v: NodeId)
    requires Worlds.Inv(w) && Winning(w, v)
    ensures w.polls.booths[v].term !in w.polls.crowns && w.polls.booths[v].term !in w.reigns
    ensures w.polls.booths[v].term !in w.peers[v].acked
  {
    hide KeepOk, BallotsKeepOk, LogOk, ReignOk, LeadOk, ChoiceOk, Election.Inv;
    assert PeerOk(w, v);
    if w.polls.booths[v].term in w.polls.crowns {
      SameTermSameLeader(w.polls, v);
    }
  }

  /** Two logs whose last entries have the same term: the longer one extends the shorter one. */
  lemma SameLastTerm(reigns: map<nat, Reign>, a: FullLog, b: FullLog)
    requires Grounded(reigns, a) && Grounded(reigns, b) && a != [] && b != []
    requires LastTerm(a) == LastTerm(b) && |a| >= |b|
    ensures Agree(a, b, |b|)
  {
    var m := reigns[LastTerm(a)].log;
    assert Agree(a, m, |a|) by { assert a[|a| - 1].term in reigns; }
    assert Agree(b, m, |b|) by { assert b[|b| - 1].term in reigns; }
  }

  /** An entry of its own term lies beyond the log a leader was elected with. */
  lemma BeyondBase(w: World, l: FullLog)
    requires Grounded(w.reigns, l) && l != [] && LastTerm(l) in w.reigns && ReignOk(w, LastTerm(l))
    ensures |w.reigns[LastTerm(l)].base| < |l| && Agree(l, w.reigns[LastTerm(l)].log, |l|)
  {
    var r := w.reigns[LastTerm(l)];
    assert l[|l| - 1].term in w.reigns;
    assert Agree(l, r.log, |l|);
    assert forall j :: 0 <= j < |r.base| ==> r.log[j].term < LastTerm(l);
  }

  /** A log at least as up to date as one that holds an entry holds it too, or the entry is beyond hope. */
  lemma UpToDateHolds(w: World, l: FullLog, ballot: FullLog, term: nat, t: nat, i: nat)
    requires forall s :: s in w.reigns ==> ReignOk(w, s) && LeadOk(w, s)
    requires Grounded(w.reigns, l) && Grounded(w.reigns, ballot) && Sorted(ballot)
    requires UpToDate(l, ballot) && Entry(w, t, i) && Agree(ballot, w.reigns[t].log, i)
    ensures Safe(w, l, t, i)
  {
    var m := w.reigns[t].log;
    assert ReignOk(w, t);
    assert ballot[i - 1].term == t <= LastTerm(ballot);
    if LastTerm(l) == LastTerm(ballot) {
      assert Agree(l, ballot, |ballot|) by {
        hide ReignOk, LeadOk;
        SameLastTerm(w.reigns, l, ballot);
      }
      assert Agree(l, m, i);
    } else {
      var s := LastTerm(l);
      assert l[|l| - 1].term in w.reigns;
      BeyondBase(w, l);
      assert Safe(w, w.reigns[s].base, t, i) by { assert LeadOk(w, s); }
      if !Dead(w, t, i) {
        assert Agree(w.reigns[s].base, m, i);
        assert Agree(l, m, i);
      }
    }
  }

  lemma VoterBallot(w: World, v: NodeId, u: NodeId)
    requires Worlds.Inv(w) && Winning(w, v) && u in w.polls.booths[v].votes
    ensures var term := w.polls.booths[v].term;
            && u in w.peers && term in w.peers[u].ballots && BallotKeeps(w, u, term)
            && Grounded(w.reigns, w.peers[u].ballots[term]) && Sorted(w.peers[u].ballots[term])
            && Grounded(w.reigns, w.peers[v].log) && UpToDate(w.peers[v].log, w.peers[u].ballots[term])
  {
    hide Grounded, Sorted, UpToDate, BallotKeeps, CommitOk, Below, AcksOk, KeepOk, ReignOk, LeadOk, ChoiceOk, CrownOk;
    var term := w.polls.booths[v].term;
    assert BoothOk(w.polls, v);
    assert Voted(w.polls, u, term, v);
    assert PeerOk(w, u) && PeerOk(w, v);
    assert BallotOk(w, u, term);
  }

  /** One voter that acknowledged the entry is enough. */
  lemma VoterHolds(w: World, v: NodeId, u: NodeId, t: nat, i: nat)
    requires Worlds.Inv(w) && Winning(w, v) && u in w.polls.booths[v].votes
    requires t < w.polls.booths[v].term && Entry(w, t, i) && Acked(w, u, t, i)
    ensures Safe(w, w.peers[v].log, t, i)
  {
    hide Grounded, Sorted, UpToDate, Entry, Safe, Acked, ReignOk, LeadOk, ChoiceOk, PeerOk, Election.Inv, Agree;
    var term := w.polls.booths[v].term;
    VoterBallot(w, v, u);
    var ballot := w.peers[u].ballots[term];
    assert Safe(w, ballot, t, i);
    EntryFacts(w, t, i);
    if Agree(ballot, w.reigns[t].log, i) {
      UpToDateHolds(w, w.peers[v].log, ballot, term, t, i);
    } else {
      NotHeldMeansDead(w, ballot, t, i);
      DeadIsSafe(w, w.peers[v].log, t, i);
    }
  }

  lemma EntryFacts(w: World, t: nat, i: nat)
    requires Entry(w, t, i)
    ensures t in w.reigns && 1 <= i <= |w.reigns[t].log|
  {
  }

  lemma NotHeldMeansDead(w: World, l: FullLog, t: nat, i: nat)
    requires Safe(w, l, t, i) && t in w.reigns && !Agree(l, w.reigns[t].log, i)
    ensures Dead(w, t, i)
  {
  }

  lemma DeadIsSafe(w: World, l: FullLog, t: nat, i: nat)
    requires Dead(w, t, i)
    ensures Safe(w, l, t, i)
  {
  }

  /** The heart of the matter: a winner's log is safe for every entry of every earlier term. */
  lemma WinnerIsSafe(w: World, v: NodeId, t: nat, i: nat)
    requires Worlds.Inv(w) && Winning(w, v)
    requires t < w.polls.booths[v].term && Entry(w, t, i)
    ensures Safe(w, w.peers[v].log, t, i)
  {
    hide Entry, Safe, ReignOk, LeadOk, ChoiceOk, PeerOk, CrownOk;
    var votes := w.polls.booths[v].votes;
    if u :| u in votes && Acked(w, u, t, i) {
      VoterHolds(w, v, u, t, i);
    } else {
      assert BoothOk(w.polls, v);
      forall u | u in votes ensures u in w.polls.booths && w.polls.booths[u].term > t {
        assert Voted(w.polls, u, w.polls.booths[v].term, v);
        assert BoothOk(w.polls, u);
      }
      assert DeadBy(w, t, i, votes);
      DeadIsSafe(w, w.peers[v].log, t, i);
    }
  }

  lemma ElectedPolls(w: World, v: NodeId, nothing: map<NodeId, nat>)
    requires Worlds.Inv(w) && Winning(w, v)
    ensures Election.Inv(Elected(w, v, nothing).polls) && Extends(w.polls, Elected(w, v, nothing).polls)
  {
    WinKeeps(w.polls, v);
  }

  lemma ElectedPeerGrows(w: World, v: NodeId, nothing: map<NodeId, nat>, u: NodeId)
    requires Shape(w) && v in w.peers && u in w.peers && w.polls.booths[v].term !in w.peers[v].acked
    ensures PeerGrows(w, Elected(w, v, nothing), u)
  {
  }

  lemma ElectedGrows(w: World, v: NodeId, nothing: map<NodeId, nat>)
    requires Shape(w) && v in w.peers && Extends(w.polls, Elected(w, v, nothing).polls)
    requires w.polls.booths[v].term !in w.reigns && w.polls.booths[v].term !in w.peers[v].acked
    ensures Grows(w, Elected(w, v, nothing))
  {
    hide Extends, PeerGrows;
    ElectedFacts(w, v, nothing);
    forall u | u in w.peers ensures PeerGrows(w, Elected(w, v, nothing), u) {
      ElectedPeerGrows(w, v, nothing, u);
    }
  }

  lemma ElectedBystander(w: World, v: NodeId, nothing: map<NodeId, nat>, u: NodeId)
    requires Shape(w) && v in w.peers && u in w.peers && u != v && w.polls.booths[v].term !in w.reigns
    ensures Untouched(w, Elected(w, v, nothing), u)
  {
  }

  lemma OldReign(w: World, x: World, term: nat)
    requires Grows(w, x) && term in w.reigns && x.reigns[term] == w.reigns[term] && ReignOk(w, term)
    ensures ReignOk(x, term)
  {
    GroundedStays(w, x, w.reigns[term].log);
  }

  /** A leadership safe for every old entry is safe for the new ones when there are none. */
  lemma OldLead(w: World, x: World, term: nat)
    requires Grows(w, x) && term in w.reigns && x.reigns[term].base == w.reigns[term].base && LeadOk(w, term)
    requires forall t: nat, i: nat :: t < term && Entry(x, t, i) ==> Entry(w, t, i) || Dead(x, t, i)
    ensures LeadOk(x, term)
  {
    forall t: nat, i: nat | t < term && Entry(x, t, i) ensures Safe(x, x.reigns[term].base, t, i) {
      if Entry(w, t, i) {
        SafeStays(w, x, w.reigns[term].base, t, i);
      }
    }
  }

  lemma NoNewEntries(w: World, v: NodeId, nothing: map<NodeId, nat>)
    requires v in w.peers && v in w.polls.booths && Below(w.peers[v].log, w.polls.booths[v].term)
    ensures forall t: nat, i: nat :: Entry(Elected(w, v, nothing), t, i) ==> Entry(w, t, i)
  {
  }

  lemma ElectedReigns(w: World, v: NodeId, nothing: map<NodeId, nat>, term: nat)
    requires Worlds.Inv(w) && Winning(w, v) && Grows(w, Elected(w, v, nothing))
    requires w.polls.booths[v].term !in w.reigns && term in Elected(w, v, nothing).reigns
    ensures ReignOk(Elected(w, v, nothing), term) && LeadOk(Elected(w, v, nothing), term)
  {
    hide Election.Inv, ChoiceOk, HistoryOk, KeepOk, BallotsKeepOk, CommitOk, Grows, ReignOk, LeadOk, Sorted, Grounded;
    var x := Elected(w, v, nothing);
    assert PeerOk(w, v);
    NoNewEntries(w, v, nothing);
    if term in w.reigns {
      OldReign(w, x, term);
      OldLead(w, x, term);
    } else {
      NewReign(w, x, v, term);
    }
  }

  lemma NewReign(w: World, x: World, v: NodeId, term: nat)
    requires Worlds.Inv(w) && Winning(w, v) && Grows(w, x) && LogOk(w, v) && term >= 1
    requires term == w.polls.booths[v].term && Below(w.peers[v].log, term)
    requires term in x.reigns && x.reigns[term] == Reign(w.peers[v].log, w.peers[v].log)
    requires forall t: nat, i: nat :: Entry(x, t, i) ==> Entry(w, t, i)
    ensures ReignOk(x, term) && LeadOk(x, term)
  {
    hide Worlds.Inv, CommitOk, Grows, Entry, Safe;
    GrowsReigns(w, x);
    GroundedStays(w, x, w.peers[v].log);
    forall t: nat, i: nat | t < term && Entry(x, t, i) ensures Safe(x, x.reigns[term].base, t, i) {
      WinnerIsSafe(w, v, t, i);
      SafeStays(w, x, w.peers[v].log, t, i);
    }
  }

  lemma GrowsReigns(w: World, x: World)
    requires Grows(w, x)
    ensures ReignsGrow(w, x)
  {
  }

  lemma ElectedKeep(w: World, x: World, v: NodeId, nothing: map<NodeId, nat>)
    requires Grows(w, x) && v in w.peers && v in w.polls.booths && KeepOk(w, v) && x == Elected(w, v, nothing)
    requires w.polls.booths[v].term !in w.reigns && Below(w.peers[v].log, w.polls.booths[v].term)
    ensures KeepOk(x, v)
  {
    hide Grows, Safe, Below;
    NoNewEntries(w, v, nothing);
    forall t: nat, i: nat | Acked(x, v, t, i) && Entry(x, t, i) ensures Safe(x, x.peers[v].log, t, i) {
      assert Entry(w, t, i);
      SafeStays(w, x, w.peers[v].log, t, i);
    }
  }

  lemma ElectedAcks(w: World, x: World, v: NodeId, nothing: map<NodeId, nat>)
    requires v in w.peers && v in w.polls.booths && AcksOk(w, v) && x == Elected(w, v, nothing)
    requires w.polls.booths[v].term !in w.reigns
    ensures AcksOk(x, v)
  {
  }

  lemma ElectedLocal(w: World, x: World, v: NodeId, nothing: map<NodeId, nat>)
    requires Grows(w, x) && v in w.peers && PeerOk(w, v) && w.polls.booths[v].role.Candidate?
    requires w.polls.booths[v].term !in w.reigns
    requires x == Elected(w, v, nothing) && forall u :: u in nothing ==> nothing[u] == 0
    ensures PeerOk(x, v)
  {
    hide HistoryOk, KeepOk, BallotsKeepOk, AcksOk, CommitOk, Grounded, Sorted, Below, PeerGrows, ReignsGrow, Extends;
    PeerFacts(w, v);
    CommitStays(w, x, w.polls.booths[v].term, w.peers[v].log, w.peers[v].commit);
    GroundedStays(w, x, w.peers[v].log);
    ElectedAcks(w, x, v, nothing);
    PastStays(w, x, v);
    ElectedKeep(w, x, v, nothing);
  }

  /** A candidate backed by a majority may lead. */
  lemma ElectMove(w: World, v: NodeId, nothing: map<NodeId, nat>)
    requires Worlds.Inv(w) && Winning(w, v) && forall u :: u in nothing ==> nothing[u] == 0
    ensures Worlds.Inv(Elected(w, v, nothing)) && Grows(w, Elected(w, v, nothing))
  {
    hide PeerOk, ReignOk, LeadOk, ChoiceOk, Election.Inv, Grows, Untouched, Elected, Majority;
    var x := Elected(w, v, nothing);
    ElectedPolls(w, v, nothing);
    FreshTerm(w, v);
    ElectedFacts(w, v, nothing);
    ElectedGrows(w, v, nothing);
    forall t | t in x.reigns ensures ReignOk(x, t) && LeadOk(x, t) {
      ElectedReigns(w, v, nothing, t);
    }
    forall u | u in w.peers ensures Untouched(w, x, u) || PeerOk(x, u) {
      if u != v {
        ElectedBystander(w, v, nothing, u);
      } else {
        ElectedLocal(w, x, v, nothing);
      }
    }
    PeersStay(w, x);
    ChoicesStay(w, x);
  }

  lemma ElectedFacts(w: World, v: NodeId, nothing: map<NodeId, nat>)
    requires Shape(w) && v in w.peers && w.polls.booths[v].term !in w.reigns
    ensures Elected(w, v, nothing).chosen == w.chosen && Shape(Elected(w, v, nothing))
    ensures Elected(w, v, nothing).peers.Keys == w.peers.Keys
  {
  }

  // ---- Proposing -----------------------------------------------------------

  /** The leader `v` appends one command of its term. */
  function Extended(w: World, v: NodeId, command: Command): World
    requires v in w.peers && v in w.polls.booths && w.polls.booths[v].term in w.reigns
  {
    var t, p := w.polls.booths[v].term, w.peers[v];
    var l := p.log + [LogEntry(t, command)];
    w.(peers := w.peers[v := p.(log := l, acked := p.acked[t := |l|])],
       reigns := w.reigns[t := w.reigns[t].(log := l)])
  }

  /** `v` leads its term, and the reign of that term is its log. */
  ghost predicate Leading(w: World, v: NodeId) {
    && v in w.peers && v in w.polls.booths && w.polls.booths[v].role.Leader?
    && w.polls.booths[v].term in w.reigns && w.reigns[w.polls.booths[v].term].log == w.peers[v].log
    && w.polls.booths[v].term in w.peers[v].acked && w.peers[v].acked[w.polls.booths[v].term] == |w.peers[v].log|
  }

  lemma LeaderFacts(w: World, v: NodeId)
    requires Worlds.Inv(w) && v in w.peers && w.polls.booths[v].role.Leader?
    ensures Leading(w, v) && w.polls.booths[v].term in w.polls.crowns
    ensures w.polls.crowns[w.polls.booths[v].term].leader == v
  {
    assert PeerOk(w, v) && BoothOk(w.polls, v);
  }

  lemma ExtendedPeerGrows(w: World, v: NodeId, command: Command, u: NodeId)
    requires Shape(w) && Leading(w, v) && u in w.peers
    ensures PeerGrows(w, Extended(w, v, command), u)
  {
  }

  lemma ExtendedFacts(w: World, v: NodeId, command: Command)
    requires Shape(w) && Leading(w, v)
    ensures var x := Extended(w, v, command);
            && x.peers.Keys == w.peers.Keys && x.reigns.Keys == w.reigns.Keys && x.polls == w.polls
            && x.chosen == w.chosen && Shape(x) && ReignsGrow(w, x)
  {
  }

  lemma ExtendedGrows(w: World, v: NodeId, command: Command)
    requires Shape(w) && Leading(w, v)
    ensures Grows(w, Extended(w, v, command))
  {
    hide PeerGrows, ReignsGrow;
    ExtendedFacts(w, v, command);
    SamePolls(w.polls, v);
    forall u | u in w.peers ensures PeerGrows(w, Extended(w, v, command), u) {
      ExtendedPeerGrows(w, v, command, u);
    }
  }

  lemma ExtendedBystander(w: World, v: NodeId, command: Command, u: NodeId)
    requires Worlds.Inv(w) && Leading(w, v) && u in w.peers && u != v
    ensures Untouched(w, Extended(w, v, command), u)
  {
    hide LogOk, HistoryOk, KeepOk, BallotsKeepOk, ReignOk, LeadOk, ChoiceOk;
    assert BoothOk(w.polls, u) && BoothOk(w.polls, v);
  }

  /** The only new entry is the one just appended. */
  lemma NewEntry(w: World, v: NodeId, command: Command, t: nat, i: nat)
    requires Leading(w, v) && Entry(Extended(w, v, command), t, i)
    ensures Entry(w, t, i) || (t == w.polls.booths[v].term && i == |w.peers[v].log| + 1)
  {
  }

  lemma LeftBehind(w: World, v: NodeId, command: Command, later: nat, u: NodeId)
    requires Worlds.Inv(w) && Leading(w, v) && later in w.reigns && later > w.polls.booths[v].term
    requires u in w.polls.crowns[later].quorum
    ensures u in w.polls.booths && w.polls.booths[u].term > w.polls.booths[v].term
    ensures !Acked(Extended(w, v, command), u, w.polls.booths[v].term, |w.peers[v].log| + 1)
  {
    hide LogOk, KeepOk, BallotsKeepOk, ReignOk, LeadOk, ChoiceOk, RoleOk, BallotOk;
    assert CrownOk(w.polls, later);
    assert Voted(w.polls, u, later, w.polls.crowns[later].leader);
    assert BoothOk(w.polls, u);
    assert PeerOk(w, u);
  }

  /** A leader that appends after a later leader was elected appends in vain. */
  lemma TooLate(w: World, v: NodeId, command: Command, later: nat)
    requires Worlds.Inv(w) && Leading(w, v) && later in w.reigns && later > w.polls.booths[v].term
    ensures Dead(Extended(w, v, command), w.polls.booths[v].term, |w.peers[v].log| + 1)
  {
    hide PeerOk, ReignOk, LeadOk, ChoiceOk, BoothOk, Extended, Acked, Backed;
    var x := Extended(w, v, command);
    var t, i, q := w.polls.booths[v].term, |w.peers[v].log| + 1, w.polls.crowns[later].quorum;
    assert CrownOk(w.polls, later);
    ExtendedFacts(w, v, command);
    forall u | u in q ensures u in x.polls.booths && x.polls.booths[u].term > t && !Acked(x, u, t, i) {
      LeftBehind(w, v, command, later, u);
    }
    assert DeadBy(x, t, i, q);
  }

  lemma LongerIsSafe(w: World, l: FullLog, m: FullLog, t: nat, i: nat)
    requires Safe(w, l, t, i) && Agree(m, l, |l|)
    ensures Safe(w, m, t, i)
  {
  }

  lemma ExtendedLead(w: World, v: NodeId, command: Command, term: nat)
    requires Worlds.Inv(w) && Leading(w, v) && term in w.reigns && Grows(w, Extended(w, v, command))
    ensures LeadOk(Extended(w, v, command), term)
  {
    hide PeerOk, ReignOk, LeadOk, ChoiceOk, Election.Inv, Grows, Entry, Dead, Extended;
    var x := Extended(w, v, command);
    forall t: nat, i: nat | t < term && Entry(x, t, i) ensures Entry(w, t, i) || Dead(x, t, i) {
      NewEntry(w, v, command, t, i);
      if !Entry(w, t, i) {
        TooLate(w, v, command, term);
      }
    }
    ExtendedBase(w, v, command, term);
    OldLead(w, x, term);
  }

  lemma ExtendedBase(w: World, v: NodeId, command: Command, term: nat)
    requires Leading(w, v) && term in w.reigns
    ensures term in Extended(w, v, command).reigns
    ensures Extended(w, v, command).reigns[term].base == w.reigns[term].base
  {
  }

  lemma ExtendedReign(w: World, v: NodeId, command: Command, term: nat)
    requires Worlds.Inv(w) && Leading(w, v) && term in w.reigns && Grows(w, Extended(w, v, command))
    ensures ReignOk(Extended(w, v, command), term)
  {
    hide PeerOk, LeadOk, ChoiceOk, Election.Inv, Sorted, Below, Grounded, Agree;
    var x := Extended(w, v, command);
    assert ReignOk(w, term);
    GrowsReigns(w, x);
    GroundedStays(w, x, w.reigns[term].log);
    if term == w.polls.booths[v].term {
      AgreeReflexive(w.peers[v].log);
      PrefixIsSound(w, term, w.peers[v].log);
      AppendIsSound(x.reigns, w.peers[v].log, LogEntry(term, command));
      AppendedAgrees(w.peers[v].log, w.reigns[term].base, LogEntry(term, command), |w.reigns[term].base|);
    }
  }

  lemma AgreeReflexive(l: FullLog)
    ensures Agree(l, l, |l|)
  {
  }

  lemma AppendedAgrees(l: FullLog, m: FullLog, e: LogEntry, k: nat)
    requires Agree(l, m, k)
    ensures Agree(l + [e], m, k)
  {
  }

  /** Appending an entry of the newest term to the reign of that term. */
  lemma AppendIsSound(reigns: map<nat, Reign>, l: FullLog, e: LogEntry)
    requires Sorted(l) && Grounded(reigns, l) && Below(l, e.term + 1)
    requires e.term in reigns && reigns[e.term].log == l + [e]
    ensures Sorted(l + [e]) && Grounded(reigns, l + [e]) && Below(l + [e], e.term + 1)
  {
    var m := l + [e];
    forall j | 0 <= j < |m| ensures m[j].term in reigns && Agree(m, reigns[m[j].term].log, j + 1) {
      if j < |l| {
        assert Agree(l, reigns[l[j].term].log, j + 1);
      }
    }
  }

  lemma ExtendedKeep(w: World, v: NodeId, command: Command)
    requires Leading(w, v) && KeepOk(w, v) && AcksOk(w, v) && Grows(w, Extended(w, v, command))
    ensures KeepOk(Extended(w, v, command), v)
  {
    hide Grows, Safe;
    var x := Extended(w, v, command);
    var l := w.peers[v].log;
    forall t: nat, i: nat | Acked(x, v, t, i) && Entry(x, t, i) ensures Safe(x, x.peers[v].log, t, i) {
      if t == w.polls.booths[v].term {
        HeldIsSafe(x, x.peers[v].log, t, i);
      } else {
        assert Acked(w, v, t, i) && Entry(w, t, i);
        SafeStays(w, x, l, t, i);
        LongerIsSafe(x, l, x.peers[v].log, t, i);
      }
    }
  }

  lemma HeldIsSafe(w: World, l: FullLog, t: nat, i: nat)
    requires t in w.reigns && Agree(l, w.reigns[t].log, i)
    ensures Safe(w, l, t, i)
  {
  }

  lemma ExtendedLog(w: World, v: NodeId, command: Command)
    requires Leading(w, v) && LogOk(w, v) && Grows(w, Extended(w, v, command))
    ensures LogOk(Extended(w, v, command), v)
  {
    hide Grows, CommitOk, Sorted, Grounded, Below;
    var x := Extended(w, v, command);
    var t, l := w.polls.booths[v].term, w.peers[v].log;
    GrowsReigns(w, x);
    GroundedStays(w, x, l);
    AppendIsSound(x.reigns, l, LogEntry(t, command));
    CommitStays(w, x, t, l, w.peers[v].commit);
    LongerCommit(x, t, l, l + [LogEntry(t, command)], w.peers[v].commit);
  }

  lemma LongerCommit(w: World, term: nat, l: FullLog, m: FullLog, k: nat)
    requires CommitOk(w, term, l, k) && Agree(m, l, |l|)
    ensures CommitOk(w, term, m, k)
  {
    if k > 0 {
      var c :| Covers(w, c, term, l, k);
      assert Covers(w, c, term, m, k);
    }
  }

  lemma ExtendedRole(w: World, v: NodeId, command: Command)
    requires Leading(w, v) && RoleOk(w, v) && Grows(w, Extended(w, v, command))
    ensures RoleOk(Extended(w, v, command), v)
  {
    hide Grows;
    var x := Extended(w, v, command);
    var b, p := w.polls.booths[v], w.peers[v];
    forall u | u in p.matched && p.matched[u] != 0 ensures Acked(x, u, b.term, p.matched[u]) {
      AckedStays(w, x, u, b.term, p.matched[u]);
    }
  }

  lemma ExtendedAcks(w: World, v: NodeId, command: Command)
    requires Leading(w, v) && AcksOk(w, v)
    ensures AcksOk(Extended(w, v, command), v)
  {
  }

  lemma ExtendedLocal(w: World, v: NodeId, command: Command)
    requires Leading(w, v) && PeerOk(w, v) && Grows(w, Extended(w, v, command))
    ensures v in Extended(w, v, command).peers && PeerOk(Extended(w, v, command), v)
  {
    hide LogOk, HistoryOk, KeepOk, BallotsKeepOk, AcksOk, RoleOk, Grows;
    PeerFacts(w, v);
    ExtendedLog(w, v, command);
    ExtendedAcks(w, v, command);
    PastStays(w, Extended(w, v, command), v);
    ExtendedKeep(w, v, command);
    ExtendedRole(w, v, command);
  }

  /** A leader may append at any time. */
  lemma ExtendMove(w: World, v: NodeId, command: Command)
    requires Worlds.Inv(w) && Leading(w, v)
    ensures Worlds.Inv(Extended(w, v, command)) && Grows(w, Extended(w, v, command))
  {
    hide PeerOk, ReignOk, LeadOk, ChoiceOk, Election.Inv, Grows, Untouched, Extended, ReignsGrow;
    var x := Extended(w, v, command);
    ExtendedFacts(w, v, command);
    ExtendedGrows(w, v, command);
    forall t | t in x.reigns ensures ReignOk(x, t) && LeadOk(x, t) {
      ExtendedReign(w, v, command, t);
      ExtendedLead(w, v, command, t);
    }
    forall u | u in w.peers ensures Untouched(w, x, u) || PeerOk(x, u) {
      if u != v {
        ExtendedBystander(w, v, command, u);
      } else {
        ExtendedLocal(w, v, command);
      }
    }
    PeersStay(w, x);
    ChoicesStay(w, x);
  }
}
