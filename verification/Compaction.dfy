/** Compaction is invisible: the offset-indexed log refines the log that was never compacted. */
module Compaction {
  import opened Basics
  import opened Messages
  import opened Logs
  import opened Splicing

  datatype Operation =
    | Append(more: seq<LogEntry>)
    | Compact(index: nat)
    | Splice(prevIndex: nat, incoming: seq<LogEntry>)

  function Perform(log: Log, op: Operation): Log {
    match op
    case Append(more) => log.Append(more)
    case Compact(index) => log.Compact(index)
    case Splice(prev, incoming) => log.Splice(prev, incoming)
  }

  /** The same on a log that is never compacted. */
  function PerformPlain(full: FullLog, op: Operation): FullLog {
    if op.Compact? then full else Perform(Plain(full), op).entries
  }

  function PerformAll(log: Log, ops: seq<Operation>): Log {
    if ops == [] then log else Perform(PerformAll(log, ops[..|ops| - 1]), ops[|ops| - 1])
  }

  function PerformAllPlain(full: FullLog, ops: seq<Operation>): FullLog {
    if ops == [] then full else PerformPlain(PerformAllPlain(full, ops[..|ops| - 1]), ops[|ops| - 1])
  }

  /** No splice reaches below the snapshot point of the moment. */
  predicate Above(log: Log, ops: seq<Operation>) {
    forall i :: 0 <= i < |ops| && ops[i].Splice? ==> ops[i].prevIndex >= PerformAll(log, ops[..i]).snapshotIndex
  }

  lemma PerformAgrees(log: Log, full: FullLog, op: Operation)
    requires Compacts(log, full) && (op.Splice? ==> op.prevIndex >= log.snapshotIndex)
    ensures Compacts(Perform(log, op), PerformPlain(full, op))
  {
    hide Compacts, Log.SpliceAt, Log.Compact, Log.Append;
    match op
    case Append(more) => AppendAgrees(log, full, more);
    case Compact(index) => CompactAgrees(log, full, index);
    case Splice(prev, incoming) => SpliceAtAgrees(log, full, prev + 1, incoming);
  }

  lemma {:induction false} PerformAllAgrees(log: Log, full: FullLog, ops: seq<Operation>)
    requires Compacts(log, full) && Above(log, ops)
    ensures Compacts(PerformAll(log, ops), PerformAllPlain(full, ops))
    decreases |ops|
  {
    hide Compacts, Perform, PerformPlain;
    if ops != [] {
      var rest := ops[..|ops| - 1];
      forall i | 0 <= i < |rest| && rest[i].Splice?
        ensures rest[i].prevIndex >= PerformAll(log, rest[..i]).snapshotIndex
      {
        assert rest[..i] == ops[..i] && rest[i] == ops[i];
      }
      PerformAllAgrees(log, full, rest);
      PerformAgrees(PerformAll(log, rest), PerformAllPlain(full, rest), ops[|ops| - 1]);
    }
  }

  /** After any sequence of appends, compactions and splices, every query at or above the snapshot point
      answers as the log that was never compacted does. */
  lemma CompactionInvisible(ops: seq<Operation>, index: nat)
    requires Above(EMPTY_LOG, ops) && index >= PerformAll(EMPTY_LOG, ops).snapshotIndex
    ensures var log, plain := PerformAll(EMPTY_LOG, ops), Plain(PerformAllPlain([], ops));
            && log.LastIndex() == plain.LastIndex() && log.LastTerm() == plain.LastTerm()
            && log.TermAt(index) == plain.TermAt(index)
            && (index > log.snapshotIndex ==> log.Get(index) == plain.Get(index))
            && log.EntriesFrom(index + 1) == plain.EntriesFrom(index + 1)
            && forall t :: log.Matches(index, t) == plain.Matches(index, t)
  {
    hide PerformAll, PerformAllPlain;
    PerformAllAgrees(EMPTY_LOG, [], ops);
    QueriesAgree(PerformAll(EMPTY_LOG, ops), PerformAllPlain([], ops), index);
  }

  // ---- Below the snapshot point --------------------------------------------

  /** The one append below the snapshot point that passes the consistency check is the one from the very
      beginning. */
  lemma OnlyFromTheStart(log: Log, prev: nat, term: nat)
    requires prev < log.snapshotIndex
    ensures log.Matches(prev, term) <==> prev == 0
  {
  }

  /** The append starts below the snapshot point and its entries end up behind it. */
  predicate Misplaced(log: Log, prev: nat, incoming: seq<LogEntry>) {
    && prev < log.snapshotIndex && incoming != []
    && !(log.snapshotIndex == 1 && log.snapshotTerm == incoming[0].term)
  }

  /** Such an append is misplaced: its entries end up behind the snapshot point, entry `j` at index
      `snapshotIndex + 1 + j`, except when the snapshot covers just the first entry and agrees on it. */
  lemma MisplacedFromTheStart(log: Log, incoming: seq<LogEntry>)
    requires log.snapshotIndex > 0 && incoming != []
    ensures log.Splice(0, incoming) ==
              if Misplaced(log, 0, incoming) then Log(incoming, log.snapshotIndex, log.snapshotTerm)
              else log.Splice(1, incoming[1..])
  {
    assert [] + incoming == incoming;
  }

  /** At or above it every entry lands at its own index. */
  lemma LandsInPlace(log: Log, prev: nat, incoming: seq<LogEntry>, j: nat)
    requires log.snapshotIndex <= prev <= log.LastIndex() && j < |incoming|
    ensures log.Splice(prev, incoming).TermAt(prev + 1 + j) == Some(incoming[j].term)
  {
    hide Log.Splice, Log.SpliceAt, Log.TruncateFrom, Log.Append, Log.Get, Log.TermAt;
    SpliceIsAt(log, prev, incoming);
    var k := SpliceShape(log, prev + 1, incoming);
    assert j < k ==> log.TermAt(prev + 1 + j) == Some(incoming[j].term);
    if k < |incoming| && j >= k {
      CutAndExtend(log, prev + 1, incoming, k, prev + 1 + j);
      TermFromGet(log.Splice(prev, incoming), prev + 1 + j, incoming[j]);
    } else if k < |incoming| {
      CutAndExtend(log, prev + 1, incoming, k, prev + 1 + j);
      SameTerm(log, log.Splice(prev, incoming), prev + 1 + j);
    }
  }

  lemma TermFromGet(log: Log, index: nat, e: LogEntry)
    requires log.Get(index) == Some(e)
    ensures log.TermAt(index) == Some(e.term)
  {
  }

  lemma SameTerm(a: Log, b: Log, index: nat)
    requires a.Get(index) == b.Get(index) && index > a.snapshotIndex && a.TermAt(index).Some?
    ensures b.TermAt(index) == a.TermAt(index)
  {
  }
}
