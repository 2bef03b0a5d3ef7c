/**
 * How a follower's log meets the appends of one leader: delayed, repeated and
 * reordered appends are absorbed (section 5.3 of the Raft paper).
 */
module Splicing {
  import opened Basics
  import opened Messages
  import opened Logs

  /** Log matching between two logs: the same term at the same index means the same prefix. */
  predicate Matching(a: FullLog, b: FullLog) {
    forall i :: 0 <= i < |a| && i < |b| && a[i].term == b[i].term ==> Agree(a, b, i + 1)
  }

  /** `entries` are the entries of `leader` after `prev`. */
  predicate SegmentOf(leader: FullLog, prev: nat, entries: seq<LogEntry>) {
    prev + |entries| <= |leader| && forall j :: 0 <= j < |entries| ==> entries[j] == leader[prev + j]
  }

  function Spliced(l: FullLog, prev: nat, entries: seq<LogEntry>): FullLog {
    Plain(l).Splice(prev, entries).entries
  }

  /** Splicing keeps everything before the first disagreement, `k` entries in, and takes the rest from
      the entries; without a disagreement it changes nothing. */
  lemma {:induction false} SpliceShape(log: Log, next: nat, entries: seq<LogEntry>) returns (k: nat)
    requires log.snapshotIndex < next <= log.LastIndex() + 1
    ensures k <= |entries| && next + k <= log.LastIndex() + 1
    ensures forall j :: 0 <= j < k ==> log.TermAt(next + j) == Some(entries[j].term)
    ensures k == |entries| ==> log.SpliceAt(next, entries) == log
    ensures k < |entries| ==> log.SpliceAt(next, entries) == log.TruncateFrom(next + k).Append(entries[k..])
    ensures k < |entries| ==> log.TermAt(next + k) != Some(entries[k].term)
    decreases |entries|
  {
    if entries == [] {
      k := 0;
    } else if log.TermAt(next) == Some(entries[0].term) {
      k := SpliceShape(log, next + 1, entries[1..]);
      assert entries[1..][k..] == entries[k + 1..];
      assert forall j :: 0 < j < k + 1 ==> entries[j] == entries[1..][j - 1] && next + j == next + 1 + (j - 1);
      k := k + 1;
    } else {
      k := 0;
      assert entries[0..] == entries;
    }
  }

  lemma SpliceIsAt(log: Log, prev: nat, entries: seq<LogEntry>)
    ensures log.Splice(prev, entries) == log.SpliceAt(prev + 1, entries)
  {
  }

  lemma NothingSpliced(log: Log, prev: nat)
    ensures log.Splice(prev, []) == log
  {
  }

  /** Entry by entry: what a cut before `next + k` followed by the remaining entries holds. */
  lemma CutAndExtend(log: Log, next: nat, entries: seq<LogEntry>, k: nat, i: nat)
    requires log.snapshotIndex < next && next + k <= log.LastIndex() + 1 && k < |entries|
    ensures var s := log.TruncateFrom(next + k).Append(entries[k..]);
            && s.LastIndex() == next - 1 + |entries|
            && s.Get(i) ==
                 if i < next + k then log.Get(i)
                 else if i < next + |entries| then Some(entries[i - next])
                 else None
  {
  }

  /** The same for a full log. */
  lemma SplicedShape(l: FullLog, prev: nat, entries: seq<LogEntry>) returns (k: nat)
    requires prev <= |l|
    ensures k <= |entries| && prev + k <= |l|
    ensures forall j :: 0 <= j < k ==> l[prev + j].term == entries[j].term
    ensures k == |entries| ==> Spliced(l, prev, entries) == l
    ensures k < |entries| ==> Spliced(l, prev, entries) == l[..prev + k] + entries[k..]
    ensures k < |entries| && prev + k < |l| ==> l[prev + k].term != entries[k].term
  {
    k := SpliceShape(Plain(l), prev + 1, entries);
    forall j: nat | j < k ensures l[prev + j].term == entries[j].term {
      assert Plain(l).TermAt(prev + 1 + j) == Some(l[prev + j].term);
    }
    assert k < |entries| && prev + k < |l| ==> Plain(l).TermAt(prev + 1 + k) == Some(l[prev + k].term);
  }

  /** Splicing commutes with compaction. */
  lemma SpliceCompacts(log: Log, l: FullLog, prev: nat, entries: seq<LogEntry>)
    requires Compacts(log, l) && prev >= log.snapshotIndex
    ensures Compacts(log.Splice(prev, entries), Spliced(l, prev, entries))
  {
    SpliceAtAgrees(log, l, prev + 1, entries);
  }

  /** The outcome of one accepted append: nothing changes, or the log becomes the leader's up to the
      append's last entry. Either way no agreement with the leader is lost. */
  lemma SpliceOutcome(l: FullLog, leader: FullLog, prev: nat, entries: seq<LogEntry>)
    requires Matching(l, leader) && Agree(l, leader, prev) && SegmentOf(leader, prev, entries)
    ensures Agree(Spliced(l, prev, entries), leader, prev + |entries|)
    ensures Spliced(l, prev, entries) == l || Spliced(l, prev, entries) == leader[..prev + |entries|]
    ensures forall i: nat :: Agree(l, leader, i) ==> Agree(Spliced(l, prev, entries), leader, i)
  {
    hide Spliced;
    var k := SplicedShape(l, prev, entries);
    assert Agree(l, leader, prev + k) by {
      if k > 0 {
        assert l[prev + k - 1].term == entries[k - 1].term == leader[prev + k - 1].term;
      }
    }
    if k < |entries| {
      var s := l[..prev + k] + entries[k..];
      assert s == leader[..prev + |entries|];
      assert leader[prev + k] == entries[k];
      assert forall i: nat :: Agree(l, leader, i) ==> i <= prev + k;
    }
  }
}
