/**
 * The replicated log of src/raft/log.rs as a value: entries after the snapshot
 * point, plus the index and term that the snapshot covers.
 */
module Logs {
  import opened Basics
  import opened Messages

  datatype Log = Log(entries: seq<LogEntry>, snapshotIndex: nat, snapshotTerm: nat) {

    function LastIndex(): nat {
      snapshotIndex + |entries|
    }

    function LastTerm(): nat {
      if entries == [] then snapshotTerm else entries[|entries| - 1].term
    }

    function FirstIndex(): nat {
      snapshotIndex + 1
    }

    function Get(index: nat): Option<LogEntry> {
      if index <= snapshotIndex || index > LastIndex() then None
      else Some(entries[index - snapshotIndex - 1])
    }

    function TermAt(index: nat): Option<nat> {
      if index == snapshotIndex then Some(snapshotTerm)
      else match Get(index)
        case Some(e) => Some(e.term)
        case None => None
    }

    function EntriesFrom(from: nat): seq<LogEntry> {
      if from <= snapshotIndex then entries
      else if from - snapshotIndex - 1 <= |entries| then entries[from - snapshotIndex - 1..]
      else []
    }

    predicate Matches(index: nat, term: nat) {
      match TermAt(index)
      case Some(t) => t == term
      case None => index == 0
    }

    function Append(more: seq<LogEntry>): Log {
      this.(entries := entries + more)
    }

    function TruncateFrom(index: nat): Log {
      if index <= snapshotIndex then this.(entries := [])
      else if index - snapshotIndex - 1 <= |entries| then this.(entries := entries[..index - snapshotIndex - 1])
      else this
    }

    /** The entries of `incoming` go at `next`, `next + 1`, ...: agreeing ones are skipped, the first
        disagreement drops the rest of this log. */
    function SpliceAt(next: nat, incoming: seq<LogEntry>): Log
      decreases |incoming|
    {
      if incoming == [] then this
      else if TermAt(next) == Some(incoming[0].term) then SpliceAt(next + 1, incoming[1..])
      else TruncateFrom(next).Append(incoming)
    }

    function Splice(prevIndex: nat, incoming: seq<LogEntry>): Log {
      SpliceAt(prevIndex + 1, incoming)
    }

    function Install(lastIncludedIndex: nat, lastIncludedTerm: nat): Log {
      Log([], lastIncludedIndex, lastIncludedTerm)
    }

    function Compact(index: nat): Log {
      if index <= snapshotIndex || index > LastIndex() then this
      else Log(entries[index - snapshotIndex..], index, TermAt(index).GetOr(snapshotTerm))
    }
  }

  /** A log that was never compacted. */
  type FullLog = seq<LogEntry>

  /** The first `k` entries are present in both logs and equal. */
  predicate Agree(a: FullLog, b: FullLog, k: nat) {
    k <= |a| && k <= |b| && forall j :: 0 <= j < k ==> a[j] == b[j]
  }

  const EMPTY_LOG := Log([], 0, 0)

  /** A full log in the form the log operations work on. */
  function Plain(full: FullLog): Log {
    Log(full, 0, 0)
  }

  /** Term of the entry at 1-based `index` of a plain log, 0 for index 0. */
  function TermOf(full: FullLog, index: nat): nat
    requires index <= |full|
  {
    if index == 0 then 0 else full[index - 1].term
  }

  /** `log` is `full` with everything up to the snapshot point compacted away. */
  predicate Compacts(log: Log, full: FullLog) {
    && log.snapshotIndex <= |full|
    && log.entries == full[log.snapshotIndex..]
    && log.snapshotTerm == TermOf(full, log.snapshotIndex)
  }

  // ---- Compaction is invisible ---------------------------------------------

  /** At or above the snapshot point every query answers as the plain log does. */
  lemma QueriesAgree(log: Log, full: FullLog, index: nat)
    requires Compacts(log, full) && index >= log.snapshotIndex
    ensures log.LastIndex() == Plain(full).LastIndex() && log.LastTerm() == Plain(full).LastTerm()
    ensures log.TermAt(index) == Plain(full).TermAt(index)
    ensures index > log.snapshotIndex ==> log.Get(index) == Plain(full).Get(index)
    ensures log.EntriesFrom(index + 1) == Plain(full).EntriesFrom(index + 1)
    ensures forall t :: log.Matches(index, t) == Plain(full).Matches(index, t)
  {
  }

  /** The entries from an index on, wherever it lies, are exactly those the log still has from there on, each
      at its place. */
  lemma EntriesFromExactly(log: Log, from: nat, index: nat)
    requires index >= from
    ensures var first := Max(from, log.FirstIndex());
            if first <= index <= log.LastIndex() then
              && index - first < |log.EntriesFrom(from)|
              && log.Get(index) == Some(log.EntriesFrom(from)[index - first])
            else log.Get(index) == None
    ensures |log.EntriesFrom(from)| == Max(from, log.LastIndex() + 1) - Max(from, log.FirstIndex())
  {
  }

  lemma LastAgrees(log: Log, full: FullLog)
    requires Compacts(log, full)
    ensures log.LastIndex() == |full|
  {
  }

  /** A previous index that passes the consistency check is in the log. */
  lemma MatchBound(log: Log, prev: nat, term: nat)
    requires log.Matches(prev, term) && prev >= log.snapshotIndex
    ensures prev <= log.LastIndex()
  {
  }

  lemma AppendAgrees(log: Log, full: FullLog, more: seq<LogEntry>)
    requires Compacts(log, full)
    ensures Compacts(log.Append(more), Plain(full).Append(more).entries)
  {
  }

  lemma CompactAgrees(log: Log, full: FullLog, index: nat)
    requires Compacts(log, full)
    ensures Compacts(log.Compact(index), full)
  {
  }

  lemma TruncateAgrees(log: Log, full: FullLog, index: nat)
    requires Compacts(log, full) && index > log.snapshotIndex
    ensures Compacts(log.TruncateFrom(index), Plain(full).TruncateFrom(index).entries)
    ensures Plain(full).TruncateFrom(index) == Plain(Plain(full).TruncateFrom(index).entries)
  {
    if index <= log.LastIndex() {
      assert full[..index - 1][log.snapshotIndex..] == full[log.snapshotIndex..][..index - log.snapshotIndex - 1];
    }
  }

  lemma {:induction false} SpliceAtAgrees(log: Log, full: FullLog, next: nat, incoming: seq<LogEntry>)
    requires Compacts(log, full) && next > log.snapshotIndex
    ensures Compacts(log.SpliceAt(next, incoming), Plain(full).SpliceAt(next, incoming).entries)
    ensures Plain(full).SpliceAt(next, incoming).snapshotIndex == 0
    ensures Plain(full).SpliceAt(next, incoming).snapshotTerm == 0
    decreases |incoming|
  {
    if incoming != [] {
      assert log.TermAt(next) == Plain(full).TermAt(next) by {
        QueriesAgree(log, full, next);
      }
      if log.TermAt(next) == Some(incoming[0].term) {
        SpliceAtAgrees(log, full, next + 1, incoming[1..]);
      } else {
        TruncateAgrees(log, full, next);
        AppendAgrees(log.TruncateFrom(next), Plain(full).TruncateFrom(next).entries, incoming);
      }
    }
  }

  lemma {:induction false} SpliceKeepsSnapshot(log: Log, next: nat, entries: seq<LogEntry>)
    ensures log.SpliceAt(next, entries).snapshotIndex == log.snapshotIndex
    ensures log.SpliceAt(next, entries).snapshotTerm == log.snapshotTerm
    decreases |entries|
  {
    if entries != [] && log.TermAt(next) == Some(entries[0].term) {
      SpliceKeepsSnapshot(log, next + 1, entries[1..]);
    }
  }

  lemma SpliceKeepsPoint(log: Log, prev: nat, entries: seq<LogEntry>)
    ensures log.Splice(prev, entries).snapshotIndex == log.snapshotIndex
  {
    SpliceKeepsSnapshot(log, prev + 1, entries);
  }
}
