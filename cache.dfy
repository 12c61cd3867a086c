/** seal/cache/cache.py: the process-wide key/value cache (a singleton over a dict). */
module Caches {
  import opened Wrappers

  class Cache<K(==,!new), V> {
    /** `__container` */
    var container: map<K, V>

    constructor ()
      ensures container == map[]
    {
      container := map[];
    }

    /** `get`: `dict.get`, None for an unset key. */
    function Get(key: K): (r: Option<V>)
      reads this
      ensures r.Some? <==> key in container
      ensures r.Some? ==> r.value == container[key]
    {
      if key in container then Some(container[key]) else None
    }

    /** `set`: stores or overwrites the key; every other key reads as before. */
    method Set(key: K, value: V)
      modifies this
      ensures container == old(container)[key := value]
      ensures Get(key) == Some(value)
      ensures forall k | k != key :: Get(k) == old(Get(k))
    {
      container := container[key := value];
    }
  }
}
