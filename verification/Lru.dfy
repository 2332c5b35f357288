/**
 * A bounded cache that evicts its least recently used key, with the semantics of version 0.10 of
 * the lru crate: `entries` runs from most to least recently used, reads and writes of a resident
 * key bring it to the front, and `Peek`, `Contains` and iteration leave the order alone.
 */
module Lru {
  import opened Types

  datatype Cache<K(==), V> = Cache(capacity: nat, entries: seq<(K, V)>)

  function Empty<K, V>(capacity: nat): Cache<K, V> {
    Cache(capacity, [])
  }

  function Find<K(==), V>(entries: seq<(K, V)>, key: K): Option<V> {
    if entries == [] then None
    else if entries[0].0 == key then Some(entries[0].1)
    else Find(entries[1..], key)
  }

  function Without<K(==), V>(entries: seq<(K, V)>, key: K): seq<(K, V)> {
    if entries == [] then []
    else if entries[0].0 == key then entries[1..]
    else [entries[0]] + Without(entries[1..], key)
  }

  function Peek<K(==), V>(cache: Cache<K, V>, key: K): Option<V> {
    Find(cache.entries, key)
  }

  predicate Contains<K(==), V>(cache: Cache<K, V>, key: K) {
    Peek(cache, key).Some?
  }

  /** A read: a hit promotes the key, a miss changes nothing. */
  function Touch<K(==), V>(cache: Cache<K, V>, key: K): Cache<K, V> {
    match Peek(cache, key)
    case None => cache
    case Some(value) => cache.(entries := [(key, value)] + Without(cache.entries, key))
  }

  /** A write: the key goes to the front, and the last key is evicted if there is no room. */
  function Put<K(==), V>(cache: Cache<K, V>, key: K, value: V): Cache<K, V> {
    var all := [(key, value)] + Without(cache.entries, key);
    cache.(entries := if |all| <= cache.capacity then all else all[..cache.capacity])
  }

  /** Keeps the value already stored for the key, if there is one. */
  function GetOrInsert<K(==), V>(cache: Cache<K, V>, key: K, value: V): Cache<K, V> {
    if Contains(cache, key) then Touch(cache, key) else Put(cache, key, value)
  }

  ghost predicate WellFormed<K, V>(cache: Cache<K, V>) {
    && 0 < cache.capacity
    && |cache.entries| <= cache.capacity
    && Distinct(cache.entries)
  }

  ghost predicate Distinct<K, V>(entries: seq<(K, V)>) {
    entries != [] ==> Find(entries[1..], entries[0].0).None? && Distinct(entries[1..])
  }

  /** The keys more recently used than `key`. */
  function Ahead<K(==), V>(entries: seq<(K, V)>, key: K): set<K> {
    if entries == [] || entries[0].0 == key then {}
    else {entries[0].0} + Ahead(entries[1..], key)
  }

  // ----- find and remove ------------------------------------------------------

  lemma {:induction false} WithoutFacts<K, V>(entries: seq<(K, V)>, key: K)
    requires Distinct(entries)
    ensures Distinct(Without(entries, key))
    ensures Find(Without(entries, key), key).None?
    ensures |Without(entries, key)| == |entries| - (if Find(entries, key).Some? then 1 else 0)
  {
    if entries != [] {
      WithoutFacts(entries[1..], key);
      if entries[0].0 != key {
        WithoutOther(entries[1..], key, entries[0].0);
        var all := [entries[0]] + Without(entries[1..], key);
        assert all[1..] == Without(entries[1..], key);
      }
    }
  }

  /** Removing another key neither loses a key nor moves anything in front of it. */
  lemma {:induction false} WithoutOther<K, V>(entries: seq<(K, V)>, other: K, key: K)
    requires other != key
    ensures Find(Without(entries, other), key) == Find(entries, key)
    ensures Find(entries, key).Some? ==> Ahead(Without(entries, other), key) <= Ahead(entries, key)
  {
    if entries != [] {
      WithoutOther(entries[1..], other, key);
      if entries[0].0 != other {
        var all := [entries[0]] + Without(entries[1..], other);
        assert all[1..] == Without(entries[1..], other);
      }
    }
  }

  lemma {:induction false} AheadFacts<K, V>(entries: seq<(K, V)>, key: K)
    ensures key !in Ahead(entries, key)
    ensures forall k :: k in Ahead(entries, key) ==> Find(entries, k).Some?
  {
    if entries != [] {
      AheadFacts(entries[1..], key);
    }
  }

  /** A key survives truncation to `n` entries when fewer than `n` keys are ahead of it. */
  lemma {:induction false} TruncationKeeps<K, V>(entries: seq<(K, V)>, key: K, n: nat)
    requires Distinct(entries) && n <= |entries|
    requires Find(entries, key).Some? && |Ahead(entries, key)| < n
    ensures Find(entries[..n], key) == Find(entries, key)
    ensures Ahead(entries[..n], key) == Ahead(entries, key)
  {
    assert entries[..n][0] == entries[0];
    if entries[0].0 != key {
      var rest := entries[1..];
      AheadFacts(rest, key);
      assert entries[0].0 !in Ahead(rest, key);
      assert |Ahead(entries, key)| == 1 + |Ahead(rest, key)|;
      TruncationKeeps(rest, key, n - 1);
      assert entries[..n][1..] == rest[..n - 1];
    }
  }

  lemma {:induction false} PrefixFind<K, V>(entries: seq<(K, V)>, key: K, n: nat)
    requires n <= |entries| && Find(entries[..n], key).Some?
    ensures Find(entries, key) == Find(entries[..n], key)
  {
    assert entries[..n][0] == entries[0];
    if entries[0].0 != key {
      assert entries[..n][1..] == entries[1..][..n - 1];
      PrefixFind(entries[1..], key, n - 1);
    }
  }

  lemma {:induction false} PrefixDistinct<K, V>(entries: seq<(K, V)>, n: nat)
    requires Distinct(entries) && n <= |entries|
    ensures Distinct(entries[..n])
  {
    if n > 0 {
      PrefixDistinct(entries[1..], n - 1);
      assert entries[..n][1..] == entries[1..][..n - 1];
      if Find(entries[..n][1..], entries[0].0).Some? {
        PrefixFind(entries[1..], entries[0].0, n - 1);
      }
    }
  }

  lemma {:induction false} FrontFacts<K, V>(key: K, value: V, rest: seq<(K, V)>)
    requires Distinct(rest) && Find(rest, key).None?
    ensures Distinct([(key, value)] + rest)
    ensures forall k :: Find([(key, value)] + rest, k) == if k == key then Some(value) else Find(rest, k)
    ensures forall k :: Ahead([(key, value)] + rest, k) == if k == key then {} else {key} + Ahead(rest, k)
  {
    var all := [(key, value)] + rest;
    assert all[1..] == rest;
  }

  // ----- the cache operations ---------------------------------------------------

  lemma {:induction false} TouchFacts<K, V>(cache: Cache<K, V>, key: K)
    requires WellFormed(cache)
    ensures WellFormed(Touch(cache, key))
    ensures Touch(cache, key).capacity == cache.capacity
    ensures forall k :: Peek(Touch(cache, key), k) == Peek(cache, k)
    ensures if Contains(cache, key) then
              && Touch(cache, key).entries[0] == (key, Peek(cache, key).value)
              && Touch(cache, key).entries[1..] == Without(cache.entries, key)
            else Touch(cache, key) == cache
  {
    if Contains(cache, key) {
      WithoutFacts(cache.entries, key);
      FrontFacts(key, Peek(cache, key).value, Without(cache.entries, key));
      forall k | k != key ensures Peek(Touch(cache, key), k) == Peek(cache, k) {
        WithoutOther(cache.entries, key, k);
      }
    }
  }

  lemma {:induction false} PutFacts<K, V>(cache: Cache<K, V>, key: K, value: V)
    requires WellFormed(cache)
    ensures WellFormed(Put(cache, key, value))
    ensures Put(cache, key, value).capacity == cache.capacity
    ensures Put(cache, key, value).entries[0] == (key, value)
    ensures Peek(Put(cache, key, value), key) == Some(value)
    ensures forall k :: k != key && Contains(Put(cache, key, value), k) ==>
            Peek(Put(cache, key, value), k) == Peek(cache, k)
  {
    var all := [(key, value)] + Without(cache.entries, key);
    WithoutFacts(cache.entries, key);
    FrontFacts(key, value, Without(cache.entries, key));
    if |all| > cache.capacity {
      PrefixDistinct(all, cache.capacity);
    }
    forall k | k != key && Contains(Put(cache, key, value), k)
      ensures Peek(Put(cache, key, value), k) == Peek(cache, k)
    {
      WithoutOther(cache.entries, key, k);
      if |all| > cache.capacity {
        PrefixFind(all, k, cache.capacity);
      }
    }
  }

  /** Writing a new key into a full cache evicts the last. */
  lemma {:induction false} PutEvictsLast<K, V>(cache: Cache<K, V>, key: K, value: V)
    requires WellFormed(cache) && |cache.entries| == cache.capacity && !Contains(cache, key)
    ensures Contains(cache, cache.entries[|cache.entries| - 1].0)
    ensures !Contains(Put(cache, key, value), cache.entries[|cache.entries| - 1].0)
  {
    LastIsNotEarlier(cache.entries);
    WithoutAbsent(cache.entries, key);
    var all := [(key, value)] + cache.entries;
    assert all[..cache.capacity][1..] == cache.entries[..|cache.entries| - 1];
  }

  lemma {:induction false} LastIsNotEarlier<K, V>(entries: seq<(K, V)>)
    requires Distinct(entries) && entries != []
    ensures Find(entries, entries[|entries| - 1].0).Some?
    ensures Find(entries[..|entries| - 1], entries[|entries| - 1].0).None?
  {
    if |entries| > 1 {
      var rest := entries[1..];
      LastIsNotEarlier(rest);
      assert entries[..|entries| - 1][1..] == rest[..|rest| - 1];
    }
  }

  lemma {:induction false} WithoutAbsent<K, V>(entries: seq<(K, V)>, key: K)
    requires Find(entries, key).None?
    ensures Without(entries, key) == entries
  {
    if entries != [] {
      WithoutAbsent(entries[1..], key);
    }
  }

  /** A write evicts a resident key exactly if the cache is full, the written key is new, and that key is the last. */
  lemma {:induction false} PutEvictsExactlyWhen<K, V>(cache: Cache<K, V>, key: K, value: V, other: K)
    requires WellFormed(cache) && Contains(cache, other) && other != key
    ensures !Contains(Put(cache, key, value), other) <==>
            && |cache.entries| == cache.capacity
            && !Contains(cache, key)
            && cache.entries[|cache.entries| - 1].0 == other
  {
    WithoutFacts(cache.entries, key);
    WithoutOther(cache.entries, key, other);
    FrontFacts(key, value, Without(cache.entries, key));
    if |cache.entries| == cache.capacity && !Contains(cache, key) {
      WithoutAbsent(cache.entries, key);
      var all := [(key, value)] + cache.entries;
      assert all[..cache.capacity][1..] == cache.entries[..|cache.entries| - 1];
      if cache.entries[|cache.entries| - 1].0 == other {
        PutEvictsLast(cache, key, value);
      } else {
        FoundBeforeLast(cache.entries, other);
      }
    }
  }

  lemma {:induction false} FoundBeforeLast<K, V>(entries: seq<(K, V)>, key: K)
    requires Find(entries, key).Some? && entries[|entries| - 1].0 != key
    ensures Find(entries[..|entries| - 1], key).Some?
  {
    if entries[0].0 != key {
      FoundBeforeLast(entries[1..], key);
      assert entries[..|entries| - 1][1..] == entries[1..][..|entries| - 2];
    }
  }

  /** The most recent part of a list of entries, as far as it fits. */
  function Recent<K, V>(entries: seq<(K, V)>, capacity: nat): seq<(K, V)> {
    if |entries| <= capacity then entries else entries[..capacity]
  }

  lemma {:induction false} RecentPut<K, V>(entries: seq<(K, V)>, capacity: nat, key: K, value: V)
    requires Find(entries, key).None? && capacity > 0
    ensures Put(Cache(capacity, Recent(entries, capacity)), key, value)
            == Cache(capacity, Recent([(key, value)] + entries, capacity))
  {
    if |entries| > capacity && Find(entries[..capacity], key).Some? {
      PrefixFind(entries, key, capacity);
    }
    WithoutAbsent(Recent(entries, capacity), key);
  }

  lemma {:induction false} FirstPut<K, V>(capacity: nat, key: K, value: V)
    requires capacity > 0
    ensures var cache := Put(Empty(capacity), key, value);
            && cache.entries == [(key, value)]
            && forall k :: Peek(cache, k) == if k == key then Some(value) else None
  {
    FrontFacts(key, value, []);
    assert [(key, value)] + [] == [(key, value)];
  }

  lemma {:induction false} GetOrInsertFacts<K, V>(cache: Cache<K, V>, key: K, value: V)
    requires WellFormed(cache)
    ensures WellFormed(GetOrInsert(cache, key, value))
    ensures GetOrInsert(cache, key, value).capacity == cache.capacity
    ensures GetOrInsert(cache, key, value).entries[0].0 == key
    ensures Peek(GetOrInsert(cache, key, value), key) == if Contains(cache, key) then Peek(cache, key) else Some(value)
    ensures forall k :: k != key && Contains(GetOrInsert(cache, key, value), k)
                    ==> Peek(GetOrInsert(cache, key, value), k) == Peek(cache, k)
  {
    if Contains(cache, key) {
      TouchFacts(cache, key);
    } else {
      PutFacts(cache, key, value);
    }
  }

  // ----- working sets -----------------------------------------------------------

  /** What happens to one cache over time. A `Used` key was resident; a `Written` key may be new. */
  datatype Op<K, V> = Used(key: K) | Written(key: K, value: V)

  function Perform<K(==), V>(cache: Cache<K, V>, op: Op<K, V>): Cache<K, V> {
    match op
    case Used(key) => Touch(cache, key)
    case Written(key, value) => Put(cache, key, value)
  }

  function Replay<K(==), V>(cache: Cache<K, V>, ops: seq<Op<K, V>>): Cache<K, V>
    decreases |ops|
  {
    if ops == [] then cache
    else Perform(Replay(cache, ops[..|ops| - 1]), ops[|ops| - 1])
  }

  /** The distinct keys other than `key` that the operations touch. */
  ghost function Others<K, V>(ops: seq<Op<K, V>>, key: K): set<K> {
    set op | op in ops && op.key != key :: op.key
  }

  /** No operation stores a value other than `value` under `key`. */
  ghost predicate Preserves<K, V>(ops: seq<Op<K, V>>, key: K, value: V) {
    forall op :: op in ops && op.Written? && op.key == key ==> op.value == value
  }

  /** `key` is resident with `value`, and only keys of `others` are ahead of it. */
  ghost predicate Held<K, V>(cache: Cache<K, V>, key: K, value: V, others: set<K>) {
    Peek(cache, key) == Some(value) && Ahead(cache.entries, key) <= others
  }

  lemma {:induction false} HeldStep<K, V>(cache: Cache<K, V>, key: K, value: V, others: set<K>, op: Op<K, V>)
    requires WellFormed(cache) && Held(cache, key, value, others)
    requires Preserves([op], key, value)
    requires |others + Others([op], key)| < cache.capacity
    ensures WellFormed(Perform(cache, op)) && Perform(cache, op).capacity == cache.capacity
    ensures Held(Perform(cache, op), key, value, others + Others([op], key))
  {
    assert op in [op];
    WithoutFacts(cache.entries, op.key);
    if op.key != key {
      WithoutOther(cache.entries, op.key, key);
      assert op.key in Others([op], key);
    }
    match op
    case Used(k) =>
      TouchFacts(cache, k);
      if Contains(cache, k) {
        FrontFacts(k, Peek(cache, k).value, Without(cache.entries, k));
      }
    case Written(k, v) =>
      var all := [(k, v)] + Without(cache.entries, k);
      PutFacts(cache, k, v);
      FrontFacts(k, v, Without(cache.entries, k));
      if |all| > cache.capacity {
        SubsetSize(Ahead(all, key), others + Others([op], key));
        TruncationKeeps(all, key, cache.capacity);
      }
  }

  lemma {:induction false} SubsetSize<K>(a: set<K>, b: set<K>)
    requires a <= b
    ensures |a| <= |b|
  {
    if a != {} {
      var x :| x in a;
      SubsetSize(a - {x}, b - {x});
    }
  }

  /**
   * The working-set property: a key keeps its place and its value over any operations that touch,
   * together with the keys already ahead of it, fewer distinct other keys than the cache holds.
   */
  lemma {:induction false} WorkingSet<K, V>(cache: Cache<K, V>, key: K, value: V, others: set<K>, ops: seq<Op<K, V>>)
    requires WellFormed(cache) && Held(cache, key, value, others)
    requires Preserves(ops, key, value)
    requires |others + Others(ops, key)| < cache.capacity
    ensures WellFormed(Replay(cache, ops)) && Replay(cache, ops).capacity == cache.capacity
    ensures Held(Replay(cache, ops), key, value, others + Others(ops, key))
    decreases |ops|
  {
    if ops != [] {
      var init, last := ops[..|ops| - 1], ops[|ops| - 1];
      OthersSplit(init, last, key);
      assert ops == init + [last];
      SubsetSize(others + Others(init, key), others + Others(ops, key));
      WorkingSet(cache, key, value, others, init);
      var before := others + Others(init, key);
      assert before + Others([last], key) == others + Others(ops, key);
      assert last in ops;
      HeldStep(Replay(cache, init), key, value, before, last);
    }
  }

  lemma {:induction false} OthersSplit<K, V>(init: seq<Op<K, V>>, last: Op<K, V>, key: K)
    ensures Others(init + [last], key) == Others(init, key) + Others([last], key)
  {
  }

  /** The bound is sharp: writing as many distinct other keys as the cache holds always evicts the key. */
  lemma {:induction false} FullTurnEvicts<K, V>(cache: Cache<K, V>, key: K, ops: seq<Op<K, V>>)
    requires WellFormed(cache)
    requires DistinctWrites(ops) && forall op :: op in ops ==> op.key != key
    requires |ops| >= cache.capacity
    ensures !Contains(Replay(cache, ops), key)
  {
    FrontIsRecentWrites(cache, ops);
    NotFound(Replay(cache, ops).entries, key);
  }

  lemma {:induction false} NotFound<K, V>(entries: seq<(K, V)>, key: K)
    requires forall i :: 0 <= i < |entries| ==> entries[i].0 != key
    ensures Find(entries, key).None?
  {
    if entries != [] {
      NotFound(entries[1..], key);
    }
  }

  ghost predicate DistinctWrites<K, V>(ops: seq<Op<K, V>>) {
    && (forall op :: op in ops ==> op.Written?)
    && (forall i, j :: 0 <= i < j < |ops| ==> ops[i].key != ops[j].key)
  }

  /** The most recent entries are those the operations wrote, the last first, as far as the cache holds them. */
  ghost predicate FrontIs<K, V>(cache: Cache<K, V>, ops: seq<Op<K, V>>) {
    && (|cache.entries| >= |ops| || |cache.entries| == cache.capacity)
    && (forall i :: 0 <= i < |cache.entries| && i < |ops| ==> cache.entries[i].0 == ops[|ops| - 1 - i].key)
  }

  lemma {:induction false} FrontIsRecentWrites<K, V>(cache: Cache<K, V>, ops: seq<Op<K, V>>)
    requires WellFormed(cache) && DistinctWrites(ops)
    ensures WellFormed(Replay(cache, ops)) && Replay(cache, ops).capacity == cache.capacity
    ensures FrontIs(Replay(cache, ops), ops)
    decreases |ops|
  {
    if ops != [] {
      var init, last := ops[..|ops| - 1], ops[|ops| - 1];
      FrontIsRecentWrites(cache, init);
      assert last in ops && ops == init + [last];
      FrontAfterWrite(Replay(cache, init), init, last);
    }
  }

  lemma {:induction false} FrontAfterWrite<K, V>(cache: Cache<K, V>, ops: seq<Op<K, V>>, op: Op<K, V>)
    requires WellFormed(cache) && FrontIs(cache, ops)
    requires op.Written? && forall i :: 0 <= i < |ops| ==> ops[i].key != op.key
    ensures var after := Put(cache, op.key, op.value);
            WellFormed(after) && after.capacity == cache.capacity && FrontIs(after, ops + [op])
  {
    PutPushesBack(cache, op.key, op.value, |ops|);
    var after, more := Put(cache, op.key, op.value), ops + [op];
    forall i | 0 <= i < |after.entries| && i < |more| ensures after.entries[i].0 == more[|more| - 1 - i].key {
      if i > 0 {
        assert after.entries[(i - 1) + 1] == cache.entries[i - 1];
        assert more[|more| - 1 - i] == ops[|ops| - 1 - (i - 1)];
      }
    }
  }

  lemma {:induction false} PutPushesBack<K, V>(cache: Cache<K, V>, key: K, value: V, n: nat)
    requires WellFormed(cache)
    requires |cache.entries| >= n || |cache.entries| == cache.capacity
    requires forall i :: 0 <= i < |cache.entries| && i < n ==> cache.entries[i].0 != key
    ensures var after := Put(cache, key, value);
            && WellFormed(after) && after.capacity == cache.capacity
            && (|after.entries| >= n + 1 || |after.entries| == cache.capacity)
            && after.entries[0].0 == key
            && (forall i :: 0 <= i < n && i + 1 < |after.entries| ==>
                i < |cache.entries| && after.entries[i + 1] == cache.entries[i])
  {
    PutFacts(cache, key, value);
    WithoutFacts(cache.entries, key);
    WithoutPrefix(cache.entries, key, n);
  }

  lemma {:induction false} WithoutPrefix<K, V>(entries: seq<(K, V)>, key: K, n: nat)
    requires forall i :: 0 <= i < |entries| && i < n ==> entries[i].0 != key
    ensures |Without(entries, key)| >= |entries| - 1
    ensures |entries| <= n ==> Without(entries, key) == entries
    ensures |entries| > n ==> |Without(entries, key)| >= n
    ensures forall i :: 0 <= i < |Without(entries, key)| && i < n ==> Without(entries, key)[i] == entries[i]
  {
    if entries != [] && n > 0 {
      WithoutPrefix(entries[1..], key, n - 1);
    } else if entries != [] && entries[0].0 != key {
      WithoutPrefix(entries[1..], key, 0);
    }
  }
}
