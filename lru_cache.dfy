/**
 * seal/cache/lru_cache.py: a least-recently-used cache over an OrderedDict, whose order
 * runs from the least to the most recently used key.
 */
module LruCaches {
  import opened Wrappers
  import opened Errors
  import opened Text
  import opened OrderedMaps

  /** `get`'s effect on the entries: a present key moves to the most recent end. */
  function Touched<V>(m: Pairs<string, V>, k: string): Pairs<string, V>
  {
    match OrderedMaps.Get(m, k)
    case None => m
    case Some(v) => OrderedMaps.Remove(m, k) + [(k, v)]
  }

  /**
   * `set`'s effect on the entries: the key moves (or is added) to the most recent end with
   * its new value, then the least recent entry is dropped when the size exceeds the capacity.
   */
  function Stored<V>(m: Pairs<string, V>, capacity: int, k: string, v: V): Pairs<string, V>
  {
    var after := OrderedMaps.Remove(m, k) + [(k, v)];
    if |after| > capacity then after[1..] else after
  }

  /** `remove_prefix`'s effect on the entries: every key with the prefix goes, the rest stay in order. */
  function WithoutPrefixed<V>(m: Pairs<string, V>, prefix: string): (r: Pairs<string, V>)
    ensures |r| <= |m|
    ensures forall k :: k in Keys(r) <==> k in Keys(m) && !StartsWith(k, prefix)
  {
    if |m| == 0 then []
    else
      var rest := WithoutPrefixed(m[1..], prefix);
      KeysFront(m);
      if StartsWith(m[0].0, prefix) then rest
      else
        KeysCons(m[0], rest);
        [m[0]] + rest
  }

  /** Filtering keeps the input order: it distributes over concatenation. */
  lemma {:induction false} WithoutPrefixedAppend<V>(a: Pairs<string, V>, b: Pairs<string, V>, prefix: string)
    ensures WithoutPrefixed(a + b, prefix) == WithoutPrefixed(a, prefix) + WithoutPrefixed(b, prefix)
  {
    if |a| == 0 {
      assert a + b == b;
    } else {
      assert (a + b)[1..] == a[1..] + b;
      WithoutPrefixedAppend(a[1..], b, prefix);
    }
  }

  /** A looked-up key becomes the most recent one, keeping its value and the others' order. */
  lemma TouchedMovesLast<V>(m: Pairs<string, V>, k: string)
    requires DistinctKeys(m) && k in Keys(m)
    ensures var t := Touched(m, k);
            && DistinctKeys(t) && |t| == |m|
            && t[|t| - 1] == (k, OrderedMaps.Get(m, k).value)
            && t[..|t| - 1] == OrderedMaps.Remove(m, k)
  {
    RemoveGet(m, k, k);
    RemovedKeysLength(Keys(m), k);
    RemoveKeysSubset(m, k);
    var rest := OrderedMaps.Remove(m, k);
    AppendFresh(rest, k, OrderedMaps.Get(m, k).value);
  }

  /** After `set`, the cache holds the value under the key, and stays within a non-zero capacity it was within. */
  lemma StoredThenGet<V>(m: Pairs<string, V>, capacity: int, k: string, v: V)
    requires DistinctKeys(m) && 0 < capacity && |m| <= capacity
    ensures var s := Stored(m, capacity, k, v);
            && DistinctKeys(s) && |s| <= capacity
            && OrderedMaps.Get(s, k) == Some(v)
            && Keys(s)[|s| - 1] == k
  {
    var rest := OrderedMaps.Remove(m, k);
    RemoveGet(m, k, k);
    RemoveKeysSubset(m, k);
    AppendFresh(rest, k, v);
    var after := rest + [(k, v)];
    var s := Stored(m, capacity, k, v);
    if |after| > capacity {
      assert s == after[1..];
      DistinctTail(after);
      LastOfTail(after);
      LastGet(s, k, v);
    } else {
      assert s == after;
      LastGet(s, k, v);
    }
    assert Keys(s)[|s| - 1] == s[|s| - 1].0;
  }

  lemma LastOfTail<V>(m: Pairs<string, V>)
    requires |m| > 1
    ensures m[1..][|m| - 2] == m[|m| - 1]
  {
  }

  /**
   * At capacity, a new key evicts exactly the least recently used entry: the rest keep
   * their order and the new entry goes last.
   */
  lemma StoredEvictsOldest<V>(m: Pairs<string, V>, capacity: int, k: string, v: V)
    requires DistinctKeys(m) && k !in Keys(m) && |m| == capacity > 0
    ensures Stored(m, capacity, k, v) == m[1..] + [(k, v)]
    ensures m[0].0 !in Keys(Stored(m, capacity, k, v))
  {
    RemoveAbsent(m, k);
    DropFirstOfAppend(m, (k, v));
    DistinctTail(m);
    KeysFront(m);
    AppendFresh(m[1..], k, v);
  }

  lemma DropFirstOfAppend<V>(m: Pairs<string, V>, x: (string, V))
    requires |m| > 0
    ensures (m + [x])[1..] == m[1..] + [x]
  {
  }

  /** A key already present is updated in place of a move, and nothing is evicted. */
  lemma StoredExistingKeepsSize<V>(m: Pairs<string, V>, capacity: int, k: string, v: V)
    requires DistinctKeys(m) && k in Keys(m) && |m| <= capacity
    ensures |Stored(m, capacity, k, v)| == |m|
  {
    RemoveGet(m, k, k);
    RemovedKeysLength(Keys(m), k);
  }

  lemma {:induction false} RemovedKeysLength(ks: seq<string>, k: string)
    requires k in ks
    ensures |RemovedKeys(ks, k)| == |ks| - 1
  {
    if ks[0] != k {
      RemovedKeysLength(ks[1..], k);
    }
  }

  class LRUCache<V> {
    /** `_cache`, from the least to the most recently used key. */
    var entries: Pairs<string, V>
    /** `_capacity` */
    const capacity: int

    predicate Valid()
      reads this
    {
      DistinctKeys(entries)
    }

    constructor (capacity: int)
      ensures this.capacity == capacity && entries == [] && Valid()
    {
      this.capacity := capacity;
      entries := [];
    }

    /** `get`: None for a missing key; otherwise its value, and it becomes the most recent. */
    method Get(key: string) returns (r: Option<V>)
      requires Valid()
      modifies this
      ensures Valid() && r == OrderedMaps.Get(old(entries), key)
      ensures entries == Touched(old(entries), key)
    {
      if key !in Keys(entries) {
        return None;
      }
      r := OrderedMaps.Get(entries, key);
      TouchedMovesLast(entries, key);
      entries := OrderedMaps.Remove(entries, key) + [(key, r.value)];
    }

    /** `set`: move to the end or append, assign, then evict the oldest entry on overflow. */
    method Set(key: string, value: V)
      requires Valid()
      modifies this
      ensures Valid() && entries == Stored(old(entries), capacity, key, value)
    {
      RemoveGet(entries, key, key);
      RemoveKeysSubset(entries, key);
      AppendFresh(OrderedMaps.Remove(entries, key), key, value);
      entries := OrderedMaps.Remove(entries, key) + [(key, value)];
      if |entries| > capacity {
        entries := entries[1..];
      }
    }

    /** `remove`: deletes the key when present. */
    method Remove(key: string)
      requires Valid()
      modifies this
      ensures Valid() && entries == OrderedMaps.Remove(old(entries), key)
      ensures key !in Keys(entries)
    {
      RemoveGet(entries, key, key);
      entries := OrderedMaps.Remove(entries, key);
    }

    /** `remove_prefix`: refuses the empty prefix, else deletes each key with the prefix in turn. */
    method RemovePrefix(prefix: string) returns (r: Result<(), Error>)
      requires Valid()
      modifies this
      ensures Valid()
      ensures prefix == "" ==> r == Err(EmptyPrefix) && entries == old(entries)
      ensures prefix != "" ==> r.Ok? && entries == WithoutPrefixed(old(entries), prefix)
    {
      if prefix == "" {
        return Err(EmptyPrefix);
      }
      ghost var o := entries;
      var ks := Keys(entries);
      var i := 0;
      while i < |ks|
        invariant 0 <= i <= |ks| == |o| && ks == Keys(o) && DistinctKeys(o)
        invariant entries == WithoutPrefixed(o[..i], prefix) + o[i..]
      {
        if StartsWith(ks[i], prefix) {
          DropPrefixedStep(o, i, prefix);
          entries := OrderedMaps.Remove(entries, ks[i]);
        } else {
          KeepStep(o, i, prefix);
        }
        i := i + 1;
      }
      PrefixDone(o, prefix);
      WithoutPrefixedDistinct(o, prefix);
      return Ok(());
    }
  }

  /** Once every pair has been visited, the entries are the filtered original. */
  lemma PrefixDone<V>(o: Pairs<string, V>, prefix: string)
    ensures WithoutPrefixed(o[..|o|], prefix) + o[|o|..] == WithoutPrefixed(o, prefix)
  {
    assert o[..|o|] == o;
  }

  /** A step of `remove_prefix` over a key without the prefix leaves the entries as they are. */
  lemma KeepStep<V>(o: Pairs<string, V>, i: nat, prefix: string)
    requires i < |o| && !StartsWith(o[i].0, prefix)
    ensures WithoutPrefixed(o[..i], prefix) + o[i..] == WithoutPrefixed(o[..i + 1], prefix) + o[i + 1..]
  {
    FilterKeep(o, i, prefix);
    SliceCons(o, i);
  }

  /** A step of `remove_prefix` over a key with the prefix removes exactly its pair. */
  lemma DropPrefixedStep<V>(o: Pairs<string, V>, i: nat, prefix: string)
    requires DistinctKeys(o) && i < |o| && StartsWith(o[i].0, prefix)
    ensures OrderedMaps.Remove(WithoutPrefixed(o[..i], prefix) + o[i..], o[i].0)
            == WithoutPrefixed(o[..i + 1], prefix) + o[i + 1..]
  {
    FilterSkip(o, i, prefix);
    var kept := WithoutPrefixed(o[..i], prefix);
    KeptKeys(o[..i], prefix);
    DropStep(o, i, kept);
  }

  lemma KeptKeys<V>(m: Pairs<string, V>, prefix: string)
    ensures forall k | k in Keys(WithoutPrefixed(m, prefix)) :: k in Keys(m)
  {
  }

  /** The filtered prefix does not grow over a pair whose key has the prefix. */
  lemma FilterSkip<V>(o: Pairs<string, V>, i: nat, prefix: string)
    requires i < |o| && StartsWith(o[i].0, prefix)
    ensures WithoutPrefixed(o[..i + 1], prefix) == WithoutPrefixed(o[..i], prefix)
  {
    SliceSnoc(o, i);
    WithoutPrefixedAppend(o[..i], [o[i]], prefix);
    WithoutPrefixedSingle(o[i], prefix);
    var kept := WithoutPrefixed(o[..i], prefix);
    assert kept + [] == kept;
  }

  /** The filtered prefix grows by a pair whose key lacks the prefix. */
  lemma FilterKeep<V>(o: Pairs<string, V>, i: nat, prefix: string)
    requires i < |o| && !StartsWith(o[i].0, prefix)
    ensures WithoutPrefixed(o[..i + 1], prefix) == WithoutPrefixed(o[..i], prefix) + [o[i]]
  {
    SliceSnoc(o, i);
    WithoutPrefixedAppend(o[..i], [o[i]], prefix);
    WithoutPrefixedSingle(o[i], prefix);
  }

  lemma WithoutPrefixedSingle<V>(x: (string, V), prefix: string)
    ensures WithoutPrefixed([x], prefix) == if StartsWith(x.0, prefix) then [] else [x]
  {
    assert [x][1..] == [];
  }

  lemma SliceSnoc<V>(o: Pairs<string, V>, i: nat)
    requires i < |o|
    ensures o[..i + 1] == o[..i] + [o[i]]
  {
  }

  lemma SliceCons<V>(o: Pairs<string, V>, i: nat)
    requires i < |o|
    ensures o[i..] == [o[i]] + o[i + 1..]
  {
  }

  /** Removing the next key from the remaining pairs drops exactly that pair. */
  lemma DropStep<V>(o: Pairs<string, V>, i: nat, kept: Pairs<string, V>)
    requires DistinctKeys(o) && i < |o|
    requires forall k | k in Keys(kept) :: k in Keys(o[..i])
    ensures OrderedMaps.Remove(kept + o[i..], o[i].0) == kept + o[i + 1..]
  {
    var k := o[i].0;
    DistinctAt(o, i);
    RemoveAppend(kept, o[i..], k);
    RemoveAbsent(kept, k);
    RemoveAbsent(o[i + 1..], k);
    RemoveFirst(o[i..], o[i + 1..]);
  }

  /** Removing the first key of pairs whose first key occurs nowhere else drops just the first pair. */
  lemma RemoveFirst<V>(m: Pairs<string, V>, rest: Pairs<string, V>)
    requires |m| > 0 && rest == m[1..] && Remove(rest, m[0].0) == rest
    ensures Remove(m, m[0].0) == rest
  {
  }

  /** The key at position `i` occurs neither before nor after it. */
  lemma DistinctAt<V>(m: Pairs<string, V>, i: nat)
    requires DistinctKeys(m) && i < |m|
    ensures m[i].0 !in Keys(m[..i]) && m[i].0 !in Keys(m[i + 1..])
  {
  }

  lemma {:induction false} WithoutPrefixedDistinct<V>(m: Pairs<string, V>, prefix: string)
    requires DistinctKeys(m)
    ensures DistinctKeys(WithoutPrefixed(m, prefix))
  {
    if |m| > 0 {
      DistinctTail(m);
      WithoutPrefixedDistinct(m[1..], prefix);
      var rest := WithoutPrefixed(m[1..], prefix);
      if !StartsWith(m[0].0, prefix) {
        DistinctCons(m[0], rest);
      }
    }
  }
}
