/** When elections start and heartbeats go out, and that a leader heard from often enough stays unchallenged. */
module Timers {
  import opened Basics
  import opened Messages
  import opened Logs
  import opened Nodes
  import opened Exactness
  import opened LeaderChain

  function TickAll(n: Node, draws: seq<nat>): Node {
    if draws == [] then n else Tick(TickAll(n, draws[..|draws| - 1]), draws[|draws| - 1])
  }

  // ---- The election timer --------------------------------------------------

  /** Short of the timeout, ticks only count. */
  lemma {:induction false} TicksOnlyCount(n: Node, draws: seq<nat>)
    requires !n.role.Leader? && n.electionElapsed + |draws| < n.electionTimeout
    ensures TickAll(n, draws) == n.(electionElapsed := n.electionElapsed + |draws|)
  {
    hide BecomeCandidate, BroadcastAppend;
    if draws != [] {
      TicksOnlyCount(n, draws[..|draws| - 1]);
    }
  }

  /** The tick that completes the timeout. */
  lemma Fires(n: Node, draw: nat)
    requires !n.role.Leader? && n.electionElapsed + 1 >= n.electionTimeout
    ensures var m := Tick(n, draw);
            && m.currentTerm == n.currentTerm + 1 && !m.role.Follower?
            && m.electionElapsed == 0 && m.electionTimeout == draw
  {
    hide BecomeCandidate, BroadcastAppend;
    StandingRaises(n.(electionElapsed := n.electionElapsed + 1), draw);
  }

  /** A node that hears nothing stands for the next term exactly at the tick that completes its timeout. */
  lemma StandsExactly(n: Node, draws: seq<nat>)
    requires !n.role.Leader? && n.electionElapsed < n.electionTimeout
    requires 0 < |draws| && n.electionElapsed + |draws| <= n.electionTimeout
    ensures var m := TickAll(n, draws);
            if n.electionElapsed + |draws| == n.electionTimeout then
              m.currentTerm == n.currentTerm + 1 && !m.role.Follower?
            else m.currentTerm == n.currentTerm && m.role == n.role
  {
    hide Tick;
    var last := |draws| - 1;
    if n.electionElapsed + |draws| < n.electionTimeout {
      TicksOnlyCount(n, draws);
    } else {
      TicksOnlyCount(n, draws[..last]);
      Fires(n.(electionElapsed := n.electionElapsed + last), draws[last]);
    }
  }

  lemma StandingRaises(n: Node, draw: nat)
    ensures var c := BecomeCandidate(n, draw);
            && c.currentTerm == n.currentTerm + 1 && !c.role.Follower?
            && c.electionElapsed == 0 && c.electionTimeout == draw
  {
    hide BecomeLeader, VoteRequests;
    OfficeKeeps(StandForElection(n, draw));
    OfficeKeepsTimer(StandForElection(n, draw));
  }

  /** A candidate that hears nothing waits out the timeout it drew when it stood, all of it, and stands
      again in the term after. */
  lemma StandsAgain(n: Node, draw: nat, draws: seq<nat>)
    requires !n.role.Leader? && n.electionElapsed + 1 >= n.electionTimeout
    requires Tick(n, draw).role.Candidate? && 0 < |draws| <= draw
    ensures var m := TickAll(Tick(n, draw), draws);
            m.currentTerm == n.currentTerm + (if |draws| == draw then 2 else 1) && !m.role.Follower?
  {
    hide Tick, TickAll;
    Fires(n, draw);
    StandsExactly(Tick(n, draw), draws);
  }

  /** The message restarts the node's timer: it is of a later term, comes from the leader of this one, or
      asks for a vote and gets it. */
  predicate Restarts(n: Node, m: Message) {
    || m.term > n.currentTerm
    || (m.term == n.currentTerm && (m.AppendEntries? || m.InstallSnapshot?))
    || (m.RequestVote? && Grants(n, m))
  }

  /** ... and no other message does. */
  lemma RestartsExactly(n: Node, from: NodeId, m: Message, draw: nat)
    ensures var s := Step(n, from, m, draw);
            && s.electionElapsed == (if Restarts(n, m) then 0 else n.electionElapsed)
            && s.electionTimeout == (if Restarts(n, m) then draw else n.electionTimeout)
  {
    hide BecomeLeader, CommitPoint, AppendFor, Log.Matches, Log.Splice, UpToDate;
    var h := Heed(n, m.term, draw);
    if m.RequestVoteReply? {
      OfficeKeepsTimer(h.(votes := h.votes + {m.voterId}));
    }
  }

  lemma OfficeKeepsTimer(n: Node)
    ensures var l := BecomeLeader(n); l.electionElapsed == n.electionElapsed && l.electionTimeout == n.electionTimeout
  {
    hide CommitPoint, Appends;
  }

  // ---- An unchallenged leader ----------------------------------------------

  /** The input is an append of term `t`, a tick, a proposal or a drain; timeouts are at least `least`. */
  predicate Calm(i: Input, t: nat, least: nat) {
    match i
    case Ticked(draw) => draw >= least
    case Proposed(_) => true
    case Drained => true
    case Received(_, m, draw) => m.AppendEntries? && m.term == t && draw >= least
  }

  /** How many ticks have passed since the last append. */
  function Silence(start: nat, inputs: seq<Input>): nat {
    if inputs == [] then start
    else
      var before := Silence(start, inputs[..|inputs| - 1]);
      match inputs[|inputs| - 1]
      case Ticked(_) => before + 1
      case Received(_, _, _) => 0
      case _ => before
  }

  predicate Following(n: Node, t: nat, least: nat, silence: nat) {
    n.role.Follower? && n.currentTerm == t && n.electionTimeout >= least && n.electionElapsed == silence
  }

  lemma CalmStep(n: Node, i: Input, t: nat, least: nat, silence: nat)
    requires Following(n, t, least, silence) && Calm(i, t, least) && (i.Ticked? ==> silence + 1 < least)
    ensures Following(Feed(n, i), t, least, if i.Ticked? then silence + 1 else if i.Received? then 0 else silence)
  {
    hide BecomeCandidate, Log.Matches, Log.Splice, CommandsIn, ConflictHint;
  }

  /** As long as an append of its term arrives before the shortest timeout has passed, a follower goes on
      following and stays in its term. */
  lemma {:induction false} HeardOftenEnough(n: Node, inputs: seq<Input>, t: nat, least: nat)
    requires Following(n, t, least, n.electionElapsed)
    requires forall k :: 0 <= k < |inputs| ==> Calm(inputs[k], t, least)
    requires forall k :: 0 <= k < |inputs| && inputs[k].Ticked? ==> Silence(n.electionElapsed, inputs[..k]) + 1 < least
    ensures Following(FeedAll(n, inputs), t, least, Silence(n.electionElapsed, inputs))
    decreases |inputs|
  {
    hide Feed, Calm, Following;
    if inputs != [] {
      var last := |inputs| - 1;
      var rest := inputs[..last];
      forall k | 0 <= k < |rest| && rest[k].Ticked? ensures Silence(n.electionElapsed, rest[..k]) + 1 < least {
        assert rest[..k] == inputs[..k] && rest[k] == inputs[k];
      }
      HeardOftenEnough(n, rest, t, least);
      CalmStep(FeedAll(n, rest), inputs[last], t, least, Silence(n.electionElapsed, rest));
    }
  }

  // ---- Heartbeats ----------------------------------------------------------

  function Repeat<T>(s: seq<T>, k: nat): seq<T> {
    if k == 0 then [] else Repeat(s, k - 1) + s
  }

  /** The ticks between two heartbeats. */
  function Period(n: Node): nat {
    Max(1, n.config.heartbeatTicks)
  }

  /** A leader that is only ticked sends every peer an append once in every period, and nothing else:
      `beats` rounds of appends, with less than a period of ticks left over. */
  lemma {:induction false} HeartbeatsExactly(n: Node, draws: seq<nat>) returns (beats: nat)
    requires n.role.Leader? && n.heartbeatElapsed < Period(n)
    ensures var m := TickAll(n, draws);
            && n.heartbeatElapsed + |draws| == beats * Period(n) + m.heartbeatElapsed
            && m.heartbeatElapsed < Period(n)
            && m == n.(heartbeatElapsed := m.heartbeatElapsed, outgoing := n.outgoing + Repeat(Appends(n), beats))
  {
    hide BecomeCandidate, Appends;
    if draws == [] {
      beats := 0;
      assert n.outgoing + [] == n.outgoing;
    } else {
      var last := |draws| - 1;
      beats := HeartbeatsExactly(n, draws[..last]);
      var m := TickAll(n, draws[..last]);
      SameAppends(n, m.(heartbeatElapsed := 0));
      if m.heartbeatElapsed + 1 >= n.config.heartbeatTicks {
        beats := beats + 1;
        assert n.outgoing + Repeat(Appends(n), beats) == (n.outgoing + Repeat(Appends(n), beats - 1)) + Appends(n);
      }
    }
  }

  lemma SameAppends(n: Node, m: Node)
    requires m == n.(heartbeatElapsed := m.heartbeatElapsed, outgoing := m.outgoing)
    ensures Appends(m) == Appends(n)
  {
    forall k | 0 <= k < |n.peers| ensures AppendFor(m, n.peers[k]) == AppendFor(n, n.peers[k]) {
    }
  }

  /** One round of appends goes to every peer once, in order. */
  lemma AppendsReachAll(n: Node)
    ensures |Appends(n)| == |n.peers|
    ensures forall k :: 0 <= k < |n.peers| ==> Appends(n)[k].to == n.peers[k]
  {
  }

  /** The first heartbeat of a term comes a whole period after the appends that announced the leader. */
  lemma FirstHeartbeat(n: Node, draws: seq<nat>)
    requires |draws| <= Period(n)
    ensures var l := BecomeLeader(n);
            TickAll(l, draws).outgoing == l.outgoing + if |draws| == Period(n) then Appends(l) else []
  {
    hide BecomeLeader, TickAll, Appends;
    var l := BecomeLeader(n);
    OfficeTimer(n);
    var beats := HeartbeatsExactly(l, draws);
    Beats(beats, Period(n), |draws|, TickAll(l, draws).heartbeatElapsed);
    assert Repeat(Appends(l), 0) == [] && Repeat(Appends(l), 1) == Repeat(Appends(l), 0) + Appends(l);
  }

  lemma OfficeTimer(n: Node)
    ensures var l := BecomeLeader(n);
            l.role.Leader? && l.heartbeatElapsed == 0 && Period(l) == Period(n)
  {
    hide CommitPoint, Appends;
  }

  lemma Beats(beats: nat, period: nat, ticks: nat, left: nat)
    requires ticks <= period && left < period && ticks == beats * period + left
    ensures beats == if ticks == period then 1 else 0
  {
    assert beats >= 2 ==> beats * period >= 2 * period;
    assert beats == 1 ==> beats * period == period;
  }
}
