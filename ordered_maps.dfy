/**
 * Insertion-ordered dictionaries (Python's dict and OrderedDict) as sequences of
 * key/value pairs with distinct keys.
 */
module OrderedMaps {
  import opened Wrappers

  type Pairs<K, V> = seq<(K, V)>

  function Keys<K, V>(m: Pairs<K, V>): (ks: seq<K>)
    ensures |ks| == |m| && forall i | 0 <= i < |m| :: ks[i] == m[i].0
  {
    seq(|m|, i requires 0 <= i < |m| => m[i].0)
  }

  function Values<K, V>(m: Pairs<K, V>): (vs: seq<V>)
    ensures |vs| == |m| && forall i | 0 <= i < |m| :: vs[i] == m[i].1
  {
    seq(|m|, i requires 0 <= i < |m| => m[i].1)
  }

  predicate DistinctKeys<K(==), V>(m: Pairs<K, V>)
  {
    forall i, j | 0 <= i < j < |m| :: m[i].0 != m[j].0
  }

  /** `d.get(k)` */
  function Get<K(==), V>(m: Pairs<K, V>, k: K): (r: Option<V>)
    ensures r.None? <==> k !in Keys(m)
  {
    if |m| == 0 then None
    else if m[0].0 == k then Some(m[0].1)
    else
      assert Keys(m) == [m[0].0] + Keys(m[1..]);
      Get(m[1..], k)
  }

  /** `d[k] = v`: an existing key keeps its position, a new key goes last. */
  function Put<K(==), V>(m: Pairs<K, V>, k: K, v: V): (r: Pairs<K, V>)
    ensures k in Keys(m) ==> Keys(r) == Keys(m)
    ensures k !in Keys(m) ==> Keys(r) == Keys(m) + [k]
  {
    if |m| == 0 then [(k, v)]
    else
      KeysFront(m);
      if m[0].0 == k then
        KeysCons((k, v), m[1..]);
        [(k, v)] + m[1..]
      else
        var rest := Put(m[1..], k, v);
        KeysCons(m[0], rest);
        [m[0]] + rest
  }

  lemma KeysCons<K, V>(x: (K, V), rest: Pairs<K, V>)
    ensures Keys([x] + rest) == [x.0] + Keys(rest)
  {
  }

  lemma KeysFront<K, V>(m: Pairs<K, V>)
    requires |m| > 0
    ensures Keys(m) == [m[0].0] + Keys(m[1..])
  {
  }

  /** `del d[k]` when present (distinct keys: one pair goes); unchanged otherwise. */
  function Remove<K(==), V>(m: Pairs<K, V>, k: K): (r: Pairs<K, V>)
    ensures |r| <= |m|
  {
    if |m| == 0 then []
    else (if m[0].0 == k then [] else [m[0]]) + Remove(m[1..], k)
  }

  lemma {:induction false} PutGet<K, V>(m: Pairs<K, V>, k: K, v: V, k': K)
    requires DistinctKeys(m)
    ensures DistinctKeys(Put(m, k, v))
    ensures Get(Put(m, k, v), k') == if k' == k then Some(v) else Get(m, k')
  {
    if |m| > 0 {
      DistinctTail(m);
      GetCons(m[0], m[1..], k');
      if m[0].0 != k {
        var rest := Put(m[1..], k, v);
        PutGet(m[1..], k, v, k');
        DistinctCons(m[0], rest);
        GetCons(m[0], rest, k');
      } else {
        DistinctCons((k, v), m[1..]);
        GetCons((k, v), m[1..], k');
      }
    }
  }

  /** The tail of a map with distinct keys has distinct keys, none of them the head's. */
  lemma DistinctTail<K, V>(m: Pairs<K, V>)
    requires DistinctKeys(m) && |m| > 0
    ensures DistinctKeys(m[1..]) && m[0].0 !in Keys(m[1..]) && m == [m[0]] + m[1..]
  {
  }

  /** A new head key keeps the keys distinct. */
  lemma DistinctCons<K, V>(x: (K, V), rest: Pairs<K, V>)
    requires DistinctKeys(rest) && x.0 !in Keys(rest)
    ensures DistinctKeys([x] + rest)
  {
    var m := [x] + rest;
    forall i, j | 0 <= i < j < |m|
      ensures m[i].0 != m[j].0
    {
      if i == 0 {
        assert m[j] == rest[j - 1];
        assert Keys(rest)[j - 1] == rest[j - 1].0;
      } else {
        assert m[i] == rest[i - 1] && m[j] == rest[j - 1];
      }
    }
  }

  /** Lookup in a map with a known head. */
  lemma GetCons<K, V>(x: (K, V), rest: Pairs<K, V>, k: K)
    ensures Get([x] + rest, k) == if x.0 == k then Some(x.1) else Get(rest, k)
  {
    assert ([x] + rest)[1..] == rest;
  }

  /** After `d[k] = v` the keys are the old keys and `k`. */
  lemma PutKeys<K, V>(m: Pairs<K, V>, k: K, v: V, x: K)
    ensures x in Keys(Put(m, k, v)) <==> x in Keys(m) || x == k
  {
  }

  lemma {:induction false} RemoveGet<K, V>(m: Pairs<K, V>, k: K, k': K)
    requires DistinctKeys(m)
    ensures DistinctKeys(Remove(m, k))
    ensures Keys(Remove(m, k)) == if k in Keys(m) then RemovedKeys(Keys(m), k) else Keys(m)
    ensures Get(Remove(m, k), k') == if k' == k then None else Get(m, k')
  {
    if |m| > 0 {
      DistinctTail(m);
      KeysFront(m);
      RemoveGet(m[1..], k, k');
      var rest := Remove(m[1..], k);
      RemoveKeysSubset(m[1..], k);
      GetCons(m[0], m[1..], k');
      if m[0].0 == k {
        assert Remove(m, k) == rest;
      } else {
        assert Remove(m, k) == [m[0]] + rest;
        DistinctCons(m[0], rest);
        KeysCons(m[0], rest);
        GetCons(m[0], rest, k');
      }
    }
  }

  /** The key sequence with the one occurrence of `k` taken out. */
  function RemovedKeys<K(==)>(ks: seq<K>, k: K): seq<K>
  {
    if |ks| == 0 then [] else if ks[0] == k then ks[1..] else [ks[0]] + RemovedKeys(ks[1..], k)
  }

  lemma {:induction false} RemoveKeysSubset<K, V>(m: Pairs<K, V>, k: K)
    ensures forall x | x in Keys(Remove(m, k)) :: x in Keys(m) && x != k
  {
    if |m| > 0 {
      RemoveKeysSubset(m[1..], k);
      assert Keys(m) == [m[0].0] + Keys(m[1..]);
      var r := Remove(m, k);
      if m[0].0 != k {
        assert Keys(r) == [m[0].0] + Keys(Remove(m[1..], k));
      } else {
        assert r == Remove(m[1..], k);
      }
    }
  }

  /** Removal works pair by pair, so it distributes over concatenation. */
  lemma {:induction false} RemoveAppend<K, V>(a: Pairs<K, V>, b: Pairs<K, V>, k: K)
    ensures Remove(a + b, k) == Remove(a, k) + Remove(b, k)
  {
    if |a| == 0 {
      assert a + b == b;
    } else {
      assert (a + b)[1..] == a[1..] + b;
      RemoveAppend(a[1..], b, k);
    }
  }

  /** Removing an absent key changes nothing. */
  lemma {:induction false} RemoveAbsent<K, V>(m: Pairs<K, V>, k: K)
    requires k !in Keys(m)
    ensures Remove(m, k) == m
  {
    if |m| > 0 {
      assert Keys(m) == [m[0].0] + Keys(m[1..]);
      RemoveAbsent(m[1..], k);
    }
  }

  /** Appending a pair whose key is new keeps the keys distinct and changes only that key's lookup. */
  lemma {:induction false} AppendFresh<K, V>(m: Pairs<K, V>, k: K, v: V)
    requires DistinctKeys(m) && k !in Keys(m)
    ensures DistinctKeys(m + [(k, v)]) && Keys(m + [(k, v)]) == Keys(m) + [k]
    ensures forall k' :: Get(m + [(k, v)], k') == if k' == k then Some(v) else Get(m, k')
  {
    assert forall i | 0 <= i < |m| :: m[i].0 in Keys(m);
    if |m| > 0 {
      assert Keys(m) == [m[0].0] + Keys(m[1..]);
      AppendFresh(m[1..], k, v);
      assert (m + [(k, v)])[1..] == m[1..] + [(k, v)];
    }
  }

  /** The value of the last pair is the one `get` finds, when keys are distinct. */
  lemma {:induction false} LastGet<K, V>(m: Pairs<K, V>, k: K, v: V)
    requires DistinctKeys(m) && |m| > 0 && m[|m| - 1] == (k, v)
    ensures Get(m, k) == Some(v)
  {
    if |m| > 1 {
      assert m[0].0 != k;
      LastGet(m[1..], k, v);
    }
  }
}
