/**
 * seal/utils/list_utils.py: `group`, which buckets items by the value of one key into an
 * insertion-ordered dict of lists. A dict item is read with `item[key]`, any other item with
 * `getattr(item, key)`; both are seen as their named values.
 */
module ListUtils {
  import opened Wrappers
  import opened Errors
  import opened Values
  import opened OrderedMaps

  datatype Item = DictItem(entries: Record) | ObjectItem(attributes: Record)

  /** `item[key]` (KeyError when absent) or `getattr(item, key)` (AttributeError when absent). */
  function KeyOf(item: Item, key: string): Result<Value, Error>
  {
    match item
    case DictItem(entries) => if key in entries then Ok(entries[key]) else Err(MissingKey)
    case ObjectItem(attributes) => if key in attributes then Ok(attributes[key]) else Err(MissingAttribute(key))
  }

  /** The grouped dict: key values in insertion order, each with its list of items. */
  type Groups = Pairs<Value, seq<Item>>

  /** One turn of the loop: open an empty list for a new key value, then append the item to it. */
  function Add(g: Groups, v: Value, item: Item): Groups
  {
    var withGroup := if v in Keys(g) then g else g + [(v, [])];
    Put(withGroup, v, Get(withGroup, v).GetOr([]) + [item])
  }

  /** What `group` returns, or raises, after the given items. */
  function Grouped(items: seq<Item>, key: string): Result<Groups, Error>
  {
    if |items| == 0 then Ok([])
    else
      match Grouped(items[..|items| - 1], key)
      case Err(e) => Err(e)
      case Ok(g) =>
        match KeyOf(items[|items| - 1], key)
        case Err(e) => Err(e)
        case Ok(v) => Ok(Add(g, v, items[|items| - 1]))
  }

  /** `group(list_, key)` */
  method Group(items: seq<Item>, key: string) returns (r: Result<Groups, Error>)
    ensures r == Grouped(items, key)
  {
    var grouped: Groups := [];
    for i := 0 to |items|
      invariant Grouped(items[..i], key) == Ok(grouped)
    {
      assert items[..i + 1][..i] == items[..i];
      var val := KeyOf(items[i], key);
      if val.Err? {
        GroupedKeepsError(items, i + 1, key);
        return Err(val.error);
      }
      if val.value !in Keys(grouped) {
        grouped := grouped + [(val.value, [])];
      }
      grouped := Put(grouped, val.value, Get(grouped, val.value).GetOr([]) + [items[i]]);
    }
    assert items[..|items|] == items;
    r := Ok(grouped);
  }

  /** An error raised on the first `n` items is the error of the whole call. */
  lemma {:induction false} GroupedKeepsError(items: seq<Item>, n: nat, key: string)
    requires n <= |items| && Grouped(items[..n], key).Err?
    ensures Grouped(items, key) == Grouped(items[..n], key)
    decreases |items| - n
  {
    if n < |items| {
      assert items[..n + 1][..n] == items[..n];
      GroupedKeepsError(items, n + 1, key);
    } else {
      assert items[..n] == items;
    }
  }

  /** Every item carries the key. */
  predicate AllKeyed(items: seq<Item>, key: string)
  {
    forall i | 0 <= i < |items| :: KeyOf(items[i], key).Ok?
  }

  /** The key value of each item, in item order. */
  function KeyValues(items: seq<Item>, key: string): (vs: seq<Value>)
    requires AllKeyed(items, key)
    ensures |vs| == |items| && forall i | 0 <= i < |items| :: vs[i] == KeyOf(items[i], key).value
  {
    seq(|items|, i requires 0 <= i < |items| => KeyOf(items[i], key).value)
  }

  /** The items whose key value is `v`, in item order. */
  function Members(items: seq<Item>, key: string, v: Value): seq<Item>
  {
    if |items| == 0 then []
    else
      var last := items[|items| - 1];
      Members(items[..|items| - 1], key, v) + (if KeyOf(last, key) == Ok(v) then [last] else [])
  }

  /** Position of the first occurrence of `w`. */
  function FirstIndex(vs: seq<Value>, w: Value): (r: nat)
    requires w in vs
    ensures r < |vs| && vs[r] == w && w !in vs[..r]
  {
    if vs[0] == w then 0
    else
      var r := 1 + FirstIndex(vs[1..], w);
      assert vs[..r] == [vs[0]] + vs[1..][..r - 1];
      r
  }

  /** The total number of grouped items. */
  function SizeSum(g: Groups): nat
  {
    if |g| == 0 then 0 else |g[0].1| + SizeSum(g[1..])
  }

  /** `group` raises exactly when some item lacks the key. */
  lemma {:induction false} GroupedOk(items: seq<Item>, key: string)
    ensures Grouped(items, key).Ok? <==> AllKeyed(items, key)
  {
    if |items| > 0 {
      GroupedOk(items[..|items| - 1], key);
      GroupedOkStep(items, key);
      AllKeyedStep(items, key);
    }
  }

  /** The loop succeeds on all items exactly when it succeeds on all but the last and the last has the key. */
  lemma GroupedOkStep(items: seq<Item>, key: string)
    requires |items| > 0
    ensures Grouped(items, key).Ok? <==> Grouped(items[..|items| - 1], key).Ok? && KeyOf(items[|items| - 1], key).Ok?
  {
  }

  lemma AllKeyedStep(items: seq<Item>, key: string)
    requires |items| > 0
    ensures AllKeyed(items, key) <==> AllKeyed(items[..|items| - 1], key) && KeyOf(items[|items| - 1], key).Ok?
  {
    var p := items[..|items| - 1];
    assert forall i | 0 <= i < |p| :: p[i] == items[i];
  }

  /** Adding an item opens its group at the end if new, and appends it to its group otherwise. */
  lemma AddShape(g: Groups, v: Value, item: Item)
    requires DistinctKeys(g)
    ensures DistinctKeys(Add(g, v, item))
    ensures Keys(Add(g, v, item)) == if v in Keys(g) then Keys(g) else Keys(g) + [v]
    ensures forall w ::
      Get(Add(g, v, item), w) == if w == v then Some(Get(g, v).GetOr([]) + [item]) else Get(g, w)
  {
    var withGroup := if v in Keys(g) then g else g + [(v, [])];
    if v !in Keys(g) {
      AppendFresh(g, v, []);
    }
    assert forall w :: Get(withGroup, w) == Get(g, w) || (w == v && Get(withGroup, w) == Some([]));
    forall w
      ensures Get(Add(g, v, item), w) == if w == v then Some(Get(g, v).GetOr([]) + [item]) else Get(g, w)
    {
      PutGet(withGroup, v, Get(withGroup, v).GetOr([]) + [item], w);
    }
    PutGet(withGroup, v, Get(withGroup, v).GetOr([]) + [item], v);
  }

  /** One more item with its key: the groups after it are the earlier groups with the item added. */
  lemma GroupedStep(items: seq<Item>, key: string)
    requires |items| > 0 && AllKeyed(items, key)
    ensures AllKeyed(items[..|items| - 1], key)
    ensures KeyValues(items, key) == KeyValues(items[..|items| - 1], key) + [KeyOf(items[|items| - 1], key).value]
    ensures Grouped(items[..|items| - 1], key).Ok? ==>
      Grouped(items, key) ==
        Ok(Add(Grouped(items[..|items| - 1], key).value, KeyOf(items[|items| - 1], key).value, items[|items| - 1]))
  {
    var p := items[..|items| - 1];
    assert forall i | 0 <= i < |p| :: p[i] == items[i];
  }

  /**
   * `g` groups `items` by `key`: one group per distinct key value, none twice, each holding
   * exactly the items with that key value, in their input order.
   */
  ghost predicate GroupsOf(g: Groups, items: seq<Item>, key: string)
    requires AllKeyed(items, key)
  {
    && DistinctKeys(g)
    && (forall w :: w in Keys(g) <==> w in KeyValues(items, key))
    && (forall w | w in KeyValues(items, key) :: Get(g, w) == Some(Members(items, key, w)))
  }

  lemma MembersStep(p: seq<Item>, x: Item, key: string, w: Value)
    ensures Members(p + [x], key, w) == Members(p, key, w) + (if KeyOf(x, key) == Ok(w) then [x] else [])
  {
    assert (p + [x])[..|p|] == p;
  }

  lemma KeyValuesStep(p: seq<Item>, x: Item, key: string)
    requires AllKeyed(p + [x], key)
    ensures AllKeyed(p, key) && KeyOf(x, key).Ok?
    ensures KeyValues(p + [x], key) == KeyValues(p, key) + [KeyOf(x, key).value]
  {
    assert forall i | 0 <= i < |p| :: (p + [x])[i] == p[i];
    assert (p + [x])[|p|] == x;
  }

  /** The group of one key value after adding the next item. */
  lemma AddGroup(g: Groups, p: seq<Item>, x: Item, key: string, w: Value)
    requires AllKeyed(p + [x], key) && AllKeyed(p, key) && KeyOf(x, key).Ok?
    requires DistinctKeys(g) && (w in Keys(g) <==> w in KeyValues(p, key))
    requires w in KeyValues(p, key) ==> Get(g, w) == Some(Members(p, key, w))
    requires w in KeyValues(p + [x], key)
    requires KeyValues(p + [x], key) == KeyValues(p, key) + [KeyOf(x, key).value]
    ensures Get(Add(g, KeyOf(x, key).value, x), w) == Some(Members(p + [x], key, w))
  {
    var v := KeyOf(x, key).value;
    AddShape(g, v, x);
    assert Get(Add(g, v, x), w) == if w == v then Some(Get(g, v).GetOr([]) + [x]) else Get(g, w);
    MembersStep(p, x, key, w);
    if w != v {
      assert KeyOf(x, key) != Ok(w);
      assert Members(p + [x], key, w) == Members(p, key, w);
      assert w in KeyValues(p, key);
    } else if v !in KeyValues(p, key) {
      MembersAbsent(p, key, v);
      assert Get(g, v) == None;
      assert Members(p + [x], key, w) == [x];
    } else {
      assert Get(g, v) == Some(Members(p, key, v));
    }
  }

  /** Adding the next item to the groups of the items before it gives the groups of all of them. */
  lemma AddGroups(g: Groups, p: seq<Item>, x: Item, key: string)
    requires AllKeyed(p + [x], key) && AllKeyed(p, key) && GroupsOf(g, p, key)
    ensures KeyOf(x, key).Ok? && GroupsOf(Add(g, KeyOf(x, key).value, x), p + [x], key)
  {
    KeyValuesStep(p, x, key);
    var v := KeyOf(x, key).value;
    AddShape(g, v, x);
    forall w | w in KeyValues(p + [x], key)
      ensures Get(Add(g, v, x), w) == Some(Members(p + [x], key, w))
    {
      AddGroup(g, p, x, key, w);
    }
  }

  /** What `group` returns groups its items. */
  lemma {:induction false} GroupedMembers(items: seq<Item>, key: string)
    requires AllKeyed(items, key)
    ensures Grouped(items, key).Ok?
    ensures GroupsOf(Grouped(items, key).value, items, key)
  {
    GroupedOk(items, key);
    if |items| > 0 {
      var p := items[..|items| - 1];
      var x := items[|items| - 1];
      GroupedStep(items, key);
      GroupedMembers(p, key);
      SplitLast(items);
      var g := Grouped(p, key).value;
      AddGroups(g, p, x, key);
      assert Grouped(items, key).value == Add(g, KeyOf(x, key).value, x);
    }
  }

  lemma SplitLast(items: seq<Item>)
    requires |items| > 0
    ensures items == items[..|items| - 1] + [items[|items| - 1]]
  {
  }

  /** No item has key value `v`: its group is empty. */
  lemma {:induction false} MembersAbsent(items: seq<Item>, key: string, v: Value)
    requires AllKeyed(items, key) && v !in KeyValues(items, key)
    ensures Members(items, key, v) == []
  {
    if |items| > 0 {
      var p := items[..|items| - 1];
      assert forall i | 0 <= i < |p| :: p[i] == items[i];
      assert KeyValues(items, key) == KeyValues(p, key) + [KeyOf(items[|items| - 1], key).value];
      MembersAbsent(p, key, v);
    }
  }

  /** The keys of `g` are ordered by their first occurrence in `vs`. */
  ghost predicate FirstOccurrenceOrder(g: Groups, vs: seq<Value>)
  {
    KeysOrdered(Keys(g), vs)
  }

  /** Every pair of keys is ordered like the first occurrences of its values. */
  ghost predicate KeysOrdered(ks: seq<Value>, vs: seq<Value>)
  {
    forall a, b | 0 <= a < b < |ks| ::
      ks[a] in vs && ks[b] in vs && FirstIndex(vs, ks[a]) < FirstIndex(vs, ks[b])
  }

  /** Adding an item keeps the keys in order of first occurrence. */
  lemma AddKeepsOrder(g: Groups, vs: seq<Value>, v: Value, item: Item)
    requires DistinctKeys(g) && (forall w :: w in Keys(g) <==> w in vs)
    requires FirstOccurrenceOrder(g, vs)
    ensures FirstOccurrenceOrder(Add(g, v, item), vs + [v])
  {
    AddShape(g, v, item);
    if v in Keys(g) {
      OrderedExtend(Keys(g), vs, v);
    } else {
      OrderedAppend(Keys(g), vs, v);
    }
  }

  /** Another occurrence at the end moves no first occurrence. */
  lemma OrderedExtend(ks: seq<Value>, vs: seq<Value>, v: Value)
    requires KeysOrdered(ks, vs)
    ensures KeysOrdered(ks, vs + [v])
  {
    forall w | w in vs
      ensures w in vs + [v] && FirstIndex(vs + [v], w) == FirstIndex(vs, w)
    {
      FirstIndexExtend(vs, [v], w);
    }
  }

  /** A value met for the first time goes after every key already seen. */
  lemma OrderedAppend(ks: seq<Value>, vs: seq<Value>, v: Value)
    requires KeysOrdered(ks, vs) && v !in vs
    requires forall w | w in ks :: w in vs
    ensures KeysOrdered(ks + [v], vs + [v])
  {
    OrderedExtend(ks, vs, v);
    var ks' := ks + [v];
    var vs' := vs + [v];
    assert vs'[..|vs|] == vs;
    assert FirstIndex(vs', v) == |vs|;
    forall a, b | 0 <= a < b < |ks'|
      ensures ks'[a] in vs' && ks'[b] in vs' && FirstIndex(vs', ks'[a]) < FirstIndex(vs', ks'[b])
    {
      if b == |ks| {
        assert ks'[a] == ks[a] && ks[a] in ks;
      } else {
        assert ks'[a] == ks[a] && ks'[b] == ks[b];
      }
    }
  }

  /** Group keys appear in the order in which their values first occur among the items. */
  lemma {:induction false} GroupedKeyOrder(items: seq<Item>, key: string)
    requires AllKeyed(items, key)
    ensures Grouped(items, key).Ok?
    ensures FirstOccurrenceOrder(Grouped(items, key).value, KeyValues(items, key))
  {
    GroupedOk(items, key);
    if |items| > 0 {
      var p := items[..|items| - 1];
      var x := items[|items| - 1];
      GroupedStep(items, key);
      GroupedMembers(p, key);
      GroupedKeyOrder(p, key);
      AddKeepsOrder(Grouped(p, key).value, KeyValues(p, key), KeyOf(x, key).value, x);
    }
  }

  lemma {:induction false} FirstIndexExtend(vs: seq<Value>, more: seq<Value>, w: Value)
    requires w in vs
    ensures w in vs + more && FirstIndex(vs + more, w) == FirstIndex(vs, w)
  {
    if vs[0] != w {
      assert (vs + more)[1..] == vs[1..] + more;
      FirstIndexExtend(vs[1..], more, w);
    }
  }

  /** Adding an item makes the groups one item larger in total. */
  lemma AddSize(g: Groups, v: Value, item: Item)
    requires DistinctKeys(g)
    ensures SizeSum(Add(g, v, item)) == SizeSum(g) + 1
  {
    var withGroup := if v in Keys(g) then g else g + [(v, [])];
    if v !in Keys(g) {
      AppendFresh(g, v, []);
      SizeSumAppend(g, [(v, [])]);
    }
    PutSizeSum(withGroup, v, Get(withGroup, v).GetOr([]) + [item]);
  }

  /** Every item lands in exactly one group: the group sizes add up to the number of items. */
  lemma {:induction false} GroupedSizes(items: seq<Item>, key: string)
    requires AllKeyed(items, key)
    ensures Grouped(items, key).Ok?
    ensures SizeSum(Grouped(items, key).value) == |items|
  {
    GroupedOk(items, key);
    if |items| > 0 {
      var p := items[..|items| - 1];
      var x := items[|items| - 1];
      GroupedStep(items, key);
      GroupedMembers(p, key);
      GroupedSizes(p, key);
      AddSize(Grouped(p, key).value, KeyOf(x, key).value, x);
    }
  }

  lemma {:induction false} SizeSumAppend(a: Groups, b: Groups)
    ensures SizeSum(a + b) == SizeSum(a) + SizeSum(b)
  {
    if |a| == 0 {
      assert a + b == b;
    } else {
      assert (a + b)[1..] == a[1..] + b;
      SizeSumAppend(a[1..], b);
    }
  }

  lemma {:induction false} PutSizeSum(g: Groups, k: Value, v: seq<Item>)
    requires k in Keys(g)
    ensures SizeSum(Put(g, k, v)) == SizeSum(g) - |Get(g, k).value| + |v|
  {
    assert Keys(g) == [g[0].0] + Keys(g[1..]);
    if g[0].0 != k {
      PutSizeSum(g[1..], k, v);
    }
  }

  /** An empty input gives an empty dict. */
  lemma EmptyGroups(key: string)
    ensures Grouped([], key) == Ok([])
  {
  }
}
