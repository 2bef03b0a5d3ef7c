/**
 * Stale and repeated appends of one leader are absorbed, on compacted logs too
 * (section 5.3 of the Raft paper).
 */
module Absorption {
  import opened Basics
  import opened Messages
  import opened Logs
  import opened Splicing
  import opened Emission

  /** The `count` entries of the leader's log after `prev`. */
  datatype Segment = Segment(prev: nat, count: nat)

  predicate Within(s: Segment, leader: FullLog) {
    s.prev + s.count <= |leader|
  }

  function Entries(s: Segment, leader: FullLog): seq<LogEntry>
    requires Within(s, leader)
  {
    leader[s.prev..s.prev + s.count]
  }

  predicate Passes(log: Log, s: Segment, leader: FullLog)
    requires Within(s, leader)
  {
    log.Matches(s.prev, TermOf(leader, s.prev))
  }

  /** The log after the segment arrives: spliced in, or rejected. */
  function Receive(log: Log, s: Segment, leader: FullLog): Log
    requires Within(s, leader)
  {
    if Passes(log, s, leader) then log.Splice(s.prev, Entries(s, leader)) else log
  }

  function ReceiveAll(log: Log, segments: seq<Segment>, leader: FullLog): Log
    requires forall i :: 0 <= i < |segments| ==> Within(segments[i], leader)
  {
    if segments == [] then log
    else
      var last := |segments| - 1;
      Receive(ReceiveAll(log, segments[..last], leader), segments[last], leader)
  }

  lemma PassesAgree(log: Log, full: FullLog, s: Segment, leader: FullLog)
    requires Within(s, leader) && Compacts(log, full) && Matching(full, leader) && s.prev >= log.snapshotIndex
    requires Passes(log, s, leader)
    ensures Agree(full, leader, s.prev)
  {
    QueriesAgree(log, full, s.prev);
  }

  lemma TakenMatches(leader: FullLog, k: nat)
    requires k <= |leader|
    ensures Matching(leader[..k], leader)
  {
  }

  /** A segment passes on the compacted log exactly when it passes on the full one. */
  lemma PassesAlike(log: Log, full: FullLog, s: Segment, leader: FullLog)
    requires Within(s, leader) && Compacts(log, full) && s.prev >= log.snapshotIndex
    ensures Passes(log, s, leader) == Passes(Plain(full), s, leader)
  {
    QueriesAgree(log, full, s.prev);
  }

  /** What a full log becomes. */
  function Received(full: FullLog, s: Segment, leader: FullLog): FullLog
    requires Within(s, leader)
  {
    if Passes(Plain(full), s, leader) then Spliced(full, s.prev, Entries(s, leader)) else full
  }

  function ReceivedAll(full: FullLog, segments: seq<Segment>, leader: FullLog): FullLog
    requires forall i :: 0 <= i < |segments| ==> Within(segments[i], leader)
  {
    if segments == [] then full
    else
      var last := |segments| - 1;
      Received(ReceivedAll(full, segments[..last], leader), segments[last], leader)
  }

  /** One segment: no agreement is lost, and an accepted one is agreed upon. */
  lemma ReceiveShares(log: Log, full: FullLog, s: Segment, leader: FullLog)
    requires Within(s, leader) && Compacts(log, full) && Matching(full, leader) && s.prev >= log.snapshotIndex
    ensures var after := Received(full, s, leader);
            && Compacts(Receive(log, s, leader), after) && Matching(after, leader)
            && (forall k: nat :: Agree(full, leader, k) ==> Agree(after, leader, k))
            && (Passes(log, s, leader) ==> Agree(after, leader, s.prev + s.count))
    ensures Receive(log, s, leader).snapshotIndex == log.snapshotIndex
  {
    hide Compacts, Matching, Passes, Log.SpliceAt, Agree;
    PassesAlike(log, full, s, leader);
    if Passes(log, s, leader) {
      PassesAgree(log, full, s, leader);
      SpliceAtAgrees(log, full, s.prev + 1, Entries(s, leader));
      SpliceOutcome(full, leader, s.prev, Entries(s, leader));
      SpliceKeepsSnapshot(log, s.prev + 1, Entries(s, leader));
      TakenMatches(leader, s.prev + s.count);
    }
  }

  /** Any segments in any order: the compacted log goes along with the full one, which loses no agreement
      with the leader. */
  lemma {:induction false} ReceiveAllShares(log: Log, full: FullLog, segments: seq<Segment>, leader: FullLog)
    requires Compacts(log, full) && Matching(full, leader)
    requires forall i :: 0 <= i < |segments| ==> Within(segments[i], leader) && segments[i].prev >= log.snapshotIndex
    ensures var after := ReceivedAll(full, segments, leader);
            && Compacts(ReceiveAll(log, segments, leader), after) && Matching(after, leader)
            && forall k: nat :: Agree(full, leader, k) ==> Agree(after, leader, k)
    ensures ReceiveAll(log, segments, leader).snapshotIndex == log.snapshotIndex
    decreases |segments|
  {
    hide Compacts, Matching, Receive, Received, Agree;
    if segments != [] {
      var last := |segments| - 1;
      ReceiveAllShares(log, full, segments[..last], leader);
      ReceiveShares(ReceiveAll(log, segments[..last], leader), ReceivedAll(full, segments[..last], leader),
                    segments[last], leader);
    }
  }

  lemma SharedTerms(log: Log, full: FullLog, s: Segment, leader: FullLog, j: nat)
    requires Within(s, leader) && Compacts(log, full) && s.prev >= log.snapshotIndex
    requires Agree(full, leader, s.prev + s.count) && j < s.count
    ensures log.TermAt(s.prev + 1 + j) == Some(Entries(s, leader)[j].term)
  {
    QueriesAgree(log, full, s.prev + 1 + j);
    assert full[s.prev + j] == leader[s.prev + j];
  }

  /** Splicing in what is already there changes nothing. */
  lemma AlreadyThere(log: Log, full: FullLog, s: Segment, leader: FullLog)
    requires Within(s, leader) && Compacts(log, full) && s.prev >= log.snapshotIndex
    requires Agree(full, leader, s.prev + s.count)
    ensures Receive(log, s, leader) == log
  {
    hide Log.TermAt, Log.SpliceAt, Passes, Agree;
    var es := Entries(s, leader);
    assert s.prev <= log.LastIndex() by {
      AgreeBound(log, full, leader, s.prev + s.count);
    }
    var k := SpliceShape(log, s.prev + 1, es);
    if k < |es| {
      SharedTerms(log, full, s, leader, k);
      assert false;
    }
  }

  lemma AgreeBound(log: Log, full: FullLog, leader: FullLog, k: nat)
    requires Compacts(log, full) && Agree(full, leader, k)
    ensures k <= log.LastIndex()
  {
  }

  /** Re-delivery changes nothing: once a segment was accepted, delivering it again later, after any
      other segments of the same leader, leaves the log as it is. */
  lemma RedeliveryChangesNothing(log: Log, full: FullLog, s: Segment, later: seq<Segment>, leader: FullLog)
    requires Compacts(log, full) && Matching(full, leader)
    requires Within(s, leader) && s.prev >= log.snapshotIndex && Passes(log, s, leader)
    requires forall i :: 0 <= i < |later| ==> Within(later[i], leader) && later[i].prev >= log.snapshotIndex
    ensures var after := ReceiveAll(Receive(log, s, leader), later, leader); Receive(after, s, leader) == after
  {
    hide Compacts, Matching, Receive, Agree, Passes;
    var first := Received(full, s, leader);
    ReceiveShares(log, full, s, leader);
    ReceiveAllShares(Receive(log, s, leader), first, later, leader);
    AlreadyThere(ReceiveAll(Receive(log, s, leader), later, leader), ReceivedAll(first, later, leader), s, leader);
  }

  /** Position `k` is the first one from `prev` on where `l` has another term than the leader. */
  predicate FirstConflict(l: FullLog, leader: FullLog, prev: nat, k: nat) {
    && prev <= k < |l| && k < |leader| && l[k].term != leader[k].term
    && forall j :: prev <= j < k ==> l[j].term == leader[j].term
  }

  /** What an append may remove: either nothing, and the log at most grows past its old end, or
      everything from the first entry whose term conflicts with the leader's. */
  lemma DropsOnlyFromConflict(l: FullLog, s: Segment, leader: FullLog)
    requires Within(s, leader) && s.prev <= |l|
    ensures var r := Spliced(l, s.prev, Entries(s, leader));
            l <= r || exists k: nat :: FirstConflict(l, leader, s.prev, k) && k < |r| == s.prev + s.count && l[..k] <= r
  {
    hide Spliced;
    var es := Entries(s, leader);
    var k := SplicedShape(l, s.prev, es);
    var c := s.prev + k;
    if k < |es| && c < |l| {
      assert l[c].term != leader[c].term;
      forall j | s.prev <= j < c ensures l[j].term == leader[j].term {
        assert l[s.prev + (j - s.prev)].term == es[j - s.prev].term;
      }
      assert FirstConflict(l, leader, s.prev, c);
    }
  }
}
