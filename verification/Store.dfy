/**
 * The state machine: write commands (src/apply.rs) on the in-memory engine
 * (src/storage/memory.rs), and why snapshots that are newer than they claim are
 * harmless.
 */
module Stores {
  import opened Basics
  import opened Messages

  type Key = string
  type Value = seq<Byte>
  type Store = map<Key, Value>

  datatype WriteCommand = Set(key: Key, value: Value) | Del(keys: seq<Key>)

  function Apply(c: WriteCommand, s: Store): Store {
    match c
    case Set(k, v) => s[k := v]
    case Del(keys) => s - Elements(keys)
  }

  /** The integer reply: 1 for a write, the number of keys that were there for a deletion. */
  function Reply(c: WriteCommand, s: Store): nat {
    match c
    case Set(_, _) => 1
    case Del(keys) => |s.Keys * Elements(keys)|
  }

  /** What a reader sees at `key`. */
  function Lookup(s: Store, key: Key): Option<Value> {
    if key in s then Some(s[key]) else None
  }

  /** A write is seen whole at its key, a deletion at each of its keys, and nowhere else anything changes. */
  lemma AppliedSeen(c: WriteCommand, s: Store, key: Key)
    ensures Lookup(Apply(c, s), key) ==
              match c
              case Set(k, v) => if k == key then Some(v) else Lookup(s, key)
              case Del(keys) => if key in keys then None else Lookup(s, key)
  {
  }

  /** The reply to a deletion is by how much the store shrinks. */
  lemma ReplyCounts(c: WriteCommand, s: Store)
    ensures c.Set? ==> Reply(c, s) == 1
    ensures c.Del? ==> |Apply(c, s)| + Reply(c, s) == |s|
  {
    if c.Del? {
      var gone := s.Keys * Elements(c.keys);
      assert Apply(c, s).Keys == s.Keys - gone;
      assert s.Keys == (s.Keys - gone) + gone;
    }
  }

  // ---- Snapshots as lists of pairs -----------------------------------------

  /** Clear the store and insert the pairs one after the other. */
  function FromPairs(data: seq<KeyValue>): Store {
    if data == [] then map[]
    else FromPairs(data[..|data| - 1])[data[|data| - 1].key := data[|data| - 1].value]
  }

  /** `data` lists the store: every pair once, in any order. */
  ghost predicate Lists(data: seq<KeyValue>, s: Store) {
    && (forall i :: 0 <= i < |data| ==> data[i].key in s && s[data[i].key] == data[i].value)
    && (forall i, j :: 0 <= i < j < |data| ==> data[i].key != data[j].key)
    && (forall k :: k in s ==> exists i :: 0 <= i < |data| && data[i].key == k)
  }

  lemma {:induction false} RestoreIsLast(data: seq<KeyValue>, k: Key)
    ensures k in FromPairs(data) <==> exists i :: 0 <= i < |data| && data[i].key == k
    ensures forall i :: 0 <= i < |data| && data[i].key == k && (forall j :: i < j < |data| ==> data[j].key != k) ==>
              k in FromPairs(data) && FromPairs(data)[k] == data[i].value
  {
    if data != [] {
      RestoreIsLast(data[..|data| - 1], k);
    }
  }

  /** Restoring any listing of a store gives that store back, whatever was there before. */
  lemma RestoreListing(data: seq<KeyValue>, s: Store)
    requires Lists(data, s)
    ensures FromPairs(data) == s
  {
    forall k | k in s ensures k in FromPairs(data) && FromPairs(data)[k] == s[k] {
      var i :| 0 <= i < |data| && data[i].key == k;
      RestoreIsLast(data, k);
    }
    forall k | k in FromPairs(data) ensures k in s {
      RestoreIsLast(data, k);
    }
  }

  // ---- The engine ----------------------------------------------------------

  class MemoryEngine {
    var contents: Store

    constructor ()
      ensures contents == map[]
    {
      contents := map[];
    }

    function Get(key: Key): Option<Value>
      reads this
    {
      Lookup(contents, key)
    }

    method Set(key: Key, value: Value)
      modifies this
      ensures contents == old(contents)[key := value]
    {
      contents := contents[key := value];
    }

    method Del(key: Key) returns (existed: bool)
      modifies this
      ensures contents == old(contents) - {key} && existed == (key in old(contents))
    {
      existed := key in contents;
      contents := contents - {key};
    }

    method Snapshot() returns (data: seq<KeyValue>)
      ensures Lists(data, contents)
    {
      data := [];
      var left := contents.Keys;
      while left != {}
        invariant left <= contents.Keys
        invariant forall i :: 0 <= i < |data| ==>
                    data[i].key in contents && contents[data[i].key] == data[i].value && data[i].key !in left
        invariant forall i, j :: 0 <= i < j < |data| ==> data[i].key != data[j].key
        invariant forall k :: k in contents && k !in left ==> exists i :: 0 <= i < |data| && data[i].key == k
        decreases |left|
      {
        var k :| k in left;
        ghost var before := data;
        data := data + [KeyValue(k, contents[k])];
        left := left - {k};
        assert data[|before|].key == k;
        assert forall i :: 0 <= i < |before| ==> data[i] == before[i];
      }
    }

    method Restore(data: seq<KeyValue>)
      modifies this
      ensures contents == FromPairs(data)
    {
      contents := map[];
      var k := 0;
      while k < |data|
        invariant k <= |data| && contents == FromPairs(data[..k])
      {
        contents := contents[data[k].key := data[k].value];
        k := k + 1;
        assert data[..k][..k - 1] == data[..k - 1];
      }
      assert data[..k] == data;
    }

    /** Deletions happen while they are counted; a key listed twice counts once. */
    method ApplyCommand(c: WriteCommand) returns (reply: nat)
      modifies this
      ensures contents == Apply(c, old(contents)) && reply == Reply(c, old(contents))
      ensures c.Set? ==> Get(c.key) == Some(c.value)
      ensures c.Del? ==> forall k :: k in c.keys ==> Get(k) == None
      ensures forall k :: (c.Set? && k != c.key) || (c.Del? && k !in c.keys) ==> Get(k) == old(Get(k))
    {
      match c {
        case Set(key, value) =>
          Set(key, value);
          reply := 1;
        case Del(keys) =>
          reply := DelAll(keys);
      }
    }

    method DelAll(keys: seq<Key>) returns (count: nat)
      modifies this
      ensures contents == old(contents) - Elements(keys) && count == |old(contents).Keys * Elements(keys)|
    {
      hide Elements, Deleted;
      ghost var was := contents;
      NothingDeleted(was, keys);
      count := 0;
      var k := 0;
      while k < |keys|
        invariant k <= |keys| && Deleted(was, keys[..k], contents, count)
      {
        ghost var s, c := contents, count;
        var existed := Del(keys[k]);
        if existed {
          count := count + 1;
        }
        OneDeleted(was, keys, k, s, c);
        k := k + 1;
      }
      assert keys[..k] == keys;
      AllDeleted(was, keys, contents, count);
    }
  }

  /** `s` is what deleting `keys` leaves of `was`, and `count` of them were there. */
  ghost predicate Deleted(was: Store, keys: seq<Key>, s: Store, count: nat) {
    s == was - Elements(keys) && count == |was.Keys * Elements(keys)|
  }

  lemma NothingDeleted(was: Store, keys: seq<Key>)
    ensures Deleted(was, keys[..0], was, 0)
  {
    hide Elements;
    ElementsNone(keys);
  }

  lemma OneDeleted(was: Store, keys: seq<Key>, k: nat, s: Store, count: nat)
    requires k < |keys| && Deleted(was, keys[..k], s, count)
    ensures Deleted(was, keys[..k + 1], s - {keys[k]}, count + if keys[k] in s then 1 else 0)
  {
    hide Elements;
    ElementsStep(keys, k);
    DelStep(was, Elements(keys[..k]), keys[k]);
    CountStep(was.Keys, Elements(keys[..k]), keys[k]);
  }

  lemma AllDeleted(was: Store, keys: seq<Key>, s: Store, count: nat)
    requires Deleted(was, keys, s, count)
    ensures s == was - Elements(keys) && count == |was.Keys * Elements(keys)|
  {
  }

  /** Deleting one more key. */
  lemma DelStep(s: Store, seen: set<Key>, key: Key)
    ensures (s - seen) - {key} == s - (seen + {key})
  {
  }

  lemma CountStep(s: set<Key>, seen: set<Key>, key: Key)
    ensures |s * (seen + {key})| == |s * seen| + if key in s && key !in seen then 1 else 0
  {
    if key in s && key !in seen {
      assert s * (seen + {key}) == s * seen + {key};
    } else {
      assert s * (seen + {key}) == s * seen;
    }
  }

  lemma ElementsNone(keys: seq<Key>)
    ensures Elements(keys[..0]) == {}
  {
  }

  lemma ElementsStep(keys: seq<Key>, k: nat)
    requires k < |keys|
    ensures Elements(keys[..k + 1]) == Elements(keys[..k]) + {keys[k]}
  {
  }

  // ---- The committed ledger ------------------------------------------------

  /** The committed entries in order; `None` is an entry that applies nothing. */
  type Ledger = seq<Option<WriteCommand>>

  function Effect(e: Option<WriteCommand>, s: Store): Store {
    match e
    case Some(c) => Apply(c, s)
    case None => s
  }

  function ApplyAll(s: Store, entries: Ledger): Store {
    if entries == [] then s else Effect(entries[|entries| - 1], ApplyAll(s, entries[..|entries| - 1]))
  }

  /** The plain fold of the first `k` committed entries. */
  function StateAt(l: Ledger, k: nat): Store
    requires k <= |l|
  {
    ApplyAll(map[], l[..k])
  }

  predicate Touches(e: Option<WriteCommand>, key: Key) {
    match e
    case Some(Set(k, _)) => k == key
    case Some(Del(keys)) => key in keys
    case None => false
  }

  predicate TouchedIn(l: Ledger, a: nat, b: nat, key: Key)
    requires b <= |l|
  {
    exists i :: a <= i < b && Touches(l[i], key)
  }

  predicate SameAt(s: Store, t: Store, key: Key) {
    (key in s <==> key in t) && (key in s ==> s[key] == t[key])
  }

  /** A command decides the keys it touches and leaves the others alone. */
  lemma EffectAt(e: Option<WriteCommand>, s: Store, t: Store, key: Key)
    ensures Touches(e, key) ==> SameAt(Effect(e, s), Effect(e, t), key)
    ensures !Touches(e, key) ==> SameAt(Effect(e, s), s, key)
  {
  }

  lemma StateStep(l: Ledger, k: nat)
    requires k < |l|
    ensures StateAt(l, k + 1) == Effect(l[k], StateAt(l, k))
  {
    assert l[..k + 1][..k] == l[..k];
  }

  // ---- What the ledger stores ----------------------------------------------

  /** Entry `p` is the last of the first `i` that touches `key`. */
  predicate LastTouch(l: Ledger, i: nat, key: Key, p: nat)
    requires i <= |l|
  {
    p < i && Touches(l[p], key) && forall q :: p < q < i ==> !Touches(l[q], key)
  }

  lemma {:induction false} SomeLastTouch(l: Ledger, i: nat, key: Key) returns (p: nat)
    requires i <= |l| && exists q: nat :: q < i && Touches(l[q], key)
    ensures LastTouch(l, i, key, p)
  {
    if Touches(l[i - 1], key) {
      p := i - 1;
    } else {
      p := SomeLastTouch(l, i - 1, key);
    }
  }

  /** What is seen at `key` is decided by the last entry that touches it ... */
  lemma LastTouchDecides(l: Ledger, i: nat, key: Key, p: nat)
    requires i <= |l| && LastTouch(l, i, key, p)
    ensures Lookup(StateAt(l, i), key) == if l[p].value.Set? then Some(l[p].value.value) else None
  {
    hide StateAt, Apply;
    StateStep(l, p);
    AppliedSeen(l[p].value, StateAt(l, p), key);
    UntouchedStays(l, p + 1, i, key);
  }

  /** ... and without one there is nothing. */
  lemma NothingThere(l: Ledger, i: nat, key: Key)
    requires i <= |l| && !TouchedIn(l, 0, i, key)
    ensures Lookup(StateAt(l, i), key) == None
  {
    UntouchedStays(l, 0, i, key);
  }

  /** A key holds `v` after the first `i` entries if and only if the last of them that touches it is a
      write of `v`. */
  lemma HoldsExactly(l: Ledger, i: nat, key: Key, v: Value)
    requires i <= |l|
    ensures Lookup(StateAt(l, i), key) == Some(v) <==>
              exists p: nat :: LastTouch(l, i, key, p) && l[p] == Some(Set(key, v))
  {
    hide StateAt, Lookup;
    if TouchedIn(l, 0, i, key) {
      var p := SomeLastTouch(l, i, key);
      LastTouchDecides(l, i, key, p);
      forall q: nat | LastTouch(l, i, key, q) ensures q == p {
      }
    } else {
      NothingThere(l, i, key);
    }
  }

  /** A store that claims to be at `applied` but may already hold effects up to `horizon`: it is right
      about every key that no entry in between touches. */
  ghost predicate Ahead(s: Store, l: Ledger, applied: nat, horizon: nat) {
    && applied <= horizon <= |l|
    && forall key :: !TouchedIn(l, applied, horizon, key) ==> SameAt(s, StateAt(l, horizon), key)
  }

  /** Shipping it on under a yet older index changes nothing. */
  lemma RelabelledIsAhead(s: Store, l: Ledger, applied: nat, horizon: nat, claim: nat)
    requires Ahead(s, l, applied, horizon) && claim <= applied
    ensures Ahead(s, l, claim, horizon)
  {
    forall key | !TouchedIn(l, claim, horizon, key) ensures SameAt(s, StateAt(l, horizon), key) {
      assert !TouchedIn(l, applied, horizon, key);
    }
  }

  /** Applying the next entry, for the first time or again. */
  lemma AppliedIsAhead(s: Store, l: Ledger, applied: nat, horizon: nat)
    requires Ahead(s, l, applied, horizon) && applied < |l|
    ensures Ahead(Effect(l[applied], s), l, applied + 1, Max(horizon, applied + 1))
  {
    var t, h := Effect(l[applied], s), Max(horizon, applied + 1);
    forall key | !TouchedIn(l, applied + 1, h, key) ensures SameAt(t, StateAt(l, h), key) {
      if applied == horizon {
        StateStep(l, applied);
        EffectAt(l[applied], s, StateAt(l, applied), key);
        EffectAt(l[applied], StateAt(l, applied), s, key);
        assert !TouchedIn(l, applied, horizon, key);
      } else {
        if Touches(l[applied], key) {
          StateStep(l, applied);
          EffectAt(l[applied], s, StateAt(l, applied), key);
          UntouchedStays(l, applied + 1, horizon, key);
        } else {
          EffectAt(l[applied], s, s, key);
          assert !TouchedIn(l, applied, horizon, key);
        }
      }
    }
  }

  lemma {:induction false} UntouchedStays(l: Ledger, a: nat, b: nat, key: Key)
    requires a <= b <= |l| && !TouchedIn(l, a, b, key)
    ensures SameAt(StateAt(l, a), StateAt(l, b), key)
    decreases b - a
  {
    if a < b {
      assert !TouchedIn(l, a, b - 1, key);
      UntouchedStays(l, a, b - 1, key);
      StateStep(l, b - 1);
      EffectAt(l[b - 1], StateAt(l, b - 1), StateAt(l, b - 1), key);
    }
  }

  /** A store that has caught up with its horizon is exactly the plain fold. */
  lemma CaughtUp(s: Store, l: Ledger, applied: nat)
    requires Ahead(s, l, applied, applied)
    ensures s == StateAt(l, applied)
  {
    var t := StateAt(l, applied);
    forall key ensures SameAt(s, t, key) {
      assert !TouchedIn(l, applied, applied, key);
    }
    assert forall key :: key in s ==> SameAt(s, t, key);
    assert forall key :: key in t ==> SameAt(s, t, key);
  }

  /** How a store came about: fresh, by applying entries up to an index, or by restoring the snapshot
      of another store under an index it claims. */
  datatype Origin = Fresh | Applied(before: Origin, upTo: nat) | Restored(sender: Origin, claim: nat)

  function Position(o: Origin): nat {
    match o
    case Fresh => 0
    case Applied(_, k) => k
    case Restored(_, k) => k
  }

  /** The furthest entry whose effect may be in the store. */
  function Horizon(o: Origin): nat {
    match o
    case Fresh => 0
    case Applied(b, k) => Max(Horizon(b), k)
    case Restored(s, _) => Horizon(s)
  }

  /** Entries are applied in order, and a snapshot never claims more than its sender applied. */
  predicate Plausible(o: Origin, l: Ledger) {
    match o
    case Fresh => true
    case Applied(b, k) => Plausible(b, l) && Position(b) <= k <= |l|
    case Restored(s, k) => Plausible(s, l) && k <= Position(s)
  }

  function StoreOf(o: Origin, l: Ledger): Store
    requires Plausible(o, l)
    decreases o, 0
  {
    match o
    case Fresh => map[]
    case Applied(b, k) => ApplyAll(StoreOf(b, l), l[Position(b)..k])
    case Restored(s, _) => StoreOf(s, l)
  }

  lemma {:induction false} RangeIsAhead(s: Store, l: Ledger, a: nat, horizon: nat, b: nat)
    requires Ahead(s, l, a, horizon) && a <= b <= |l|
    ensures Ahead(ApplyAll(s, l[a..b]), l, b, Max(horizon, b))
    decreases b - a
  {
    if a < b {
      RangeIsAhead(s, l, a, horizon, b - 1);
      assert l[a..b][..|l[a..b]| - 1] == l[a..b - 1];
      AppliedIsAhead(ApplyAll(s, l[a..b - 1]), l, b - 1, Max(horizon, b - 1));
    }
  }

  lemma {:induction false} OriginIsAhead(o: Origin, l: Ledger)
    requires Plausible(o, l)
    ensures Ahead(StoreOf(o, l), l, Position(o), Horizon(o))
  {
    match o
    case Fresh =>
    case Applied(b, k) =>
      OriginIsAhead(b, l);
      RangeIsAhead(StoreOf(b, l), l, Position(b), Horizon(b), k);
    case Restored(s, k) =>
      OriginIsAhead(s, l);
      RelabelledIsAhead(StoreOf(s, l), l, Position(s), Horizon(s), k);
  }

  /** Snapshots newer than they claim converge: through any chain of them, a store that has applied as
      far as the furthest sender equals the plain fold of the committed log. */
  lemma SnapshotsConverge(o: Origin, l: Ledger)
    requires Plausible(o, l) && Position(o) >= Horizon(o)
    ensures Position(o) <= |l|
    ensures StoreOf(o, l) == StateAt(l, Position(o))
  {
    OriginIsAhead(o, l);
    CaughtUp(StoreOf(o, l), l, Position(o));
  }

  /** Before that point it need not: the store is ahead of the index it claims. */
  lemma NotBeforeTheHorizon()
    ensures var l := [Some(Set("k", [1])), Some(Set("k", [2]))];
            var o := Restored(Applied(Fresh, 2), 1);
            Plausible(o, l) && StoreOf(o, l) != StateAt(l, Position(o))
  {
    var l := [Some(Set("k", [1])), Some(Set("k", [2]))];
    StateStep(l, 0);
    StateStep(l, 1);
    assert l[0..2] == l[..2];
    assert StoreOf(Applied(Fresh, 2), l) == StateAt(l, 2);
    assert StateAt(l, 1)["k"] == [1] && StateAt(l, 2)["k"] == [2];
  }
}
