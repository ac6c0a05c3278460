/**
 * The lazily loaded key-value store. The map is read through the getter on the
 * first access after construction or `clear`, kept in memory, and every change
 * is written through the setter as the whole updated map.
 */
module KeyValueStorage {
  import opened Common

  /**
   * A `Storage<K, V>`. The getter and the setter are not modelled as code: each
   * operation that may load receives `stored`, the map the getter would return
   * now, and `writes` records every map handed to the setter, in order. The
   * ghost `loads` counts getter calls since construction or the last `clear`.
   */
  class Storage<K(==), V(==)> {
    var data: Option<map<K, V>>
    ghost var loads: nat
    ghost var writes: seq<map<K, V>>

    /** The getter has been called once exactly when the map is cached. */
    ghost predicate Valid()
      reads this
    {
      (data.None? ==> loads == 0) && (data.Some? ==> loads == 1)
    }

    constructor ()
      ensures Valid() && data.None? && writes == []
    {
      data := None;
      loads := 0;
      writes := [];
    }

    /** The cached map, or the getter's map when nothing is cached. */
    function Cached(stored: map<K, V>): map<K, V>
      reads this
    {
      if data.Some? then data.value else stored
    }

    /** `if (!this.data) this.data = await this.getter()`. */
    method Load(stored: map<K, V>)
      requires Valid()
      modifies this
      ensures Valid() && data == Some(old(Cached(stored))) && writes == old(writes)
      ensures loads <= 1 && (old(data).Some? ==> loads == old(loads))
    {
      if data.None? {
        data := Some(stored);
        loads := loads + 1;
      }
    }

    /** `get(key)`: the cached value, `None` for `undefined`. */
    method Get(key: K, stored: map<K, V>) returns (r: Option<V>)
      requires Valid()
      modifies this
      ensures Valid() && data == Some(old(Cached(stored))) && writes == old(writes)
      ensures r == if key in data.value then Some(data.value[key]) else None
    {
      Load(stored);
      r := if key in data.value then Some(data.value[key]) else None;
    }

    /** `getAll()`: the cached map itself. */
    method GetAll(stored: map<K, V>) returns (m: map<K, V>)
      requires Valid()
      modifies this
      ensures Valid() && data == Some(old(Cached(stored))) && writes == old(writes)
      ensures m == data.value
    {
      Load(stored);
      m := data.value;
    }

    /** `listKeys()`: every key of the cached map once. */
    method ListKeys(stored: map<K, V>) returns (keys: seq<K>)
      requires Valid()
      modifies this
      ensures Valid() && data == Some(old(Cached(stored))) && writes == old(writes)
      ensures |keys| == |data.value.Keys|
      ensures forall k :: k in keys <==> k in data.value
      ensures forall i, j :: 0 <= i < j < |keys| ==> keys[i] != keys[j]
    {
      Load(stored);
      var rest := data.value.Keys;
      keys := [];
      while rest != {}
        invariant rest !! (set k | k in keys)
        invariant forall k :: k in data.value <==> k in rest || k in keys
        invariant |keys| + |rest| == |data.value.Keys|
        invariant forall i, j :: 0 <= i < j < |keys| ==> keys[i] != keys[j]
        decreases |rest|
      {
        var k :| k in rest;
        keys := keys + [k];
        rest := rest - {k};
      }
    }

    /** `set(key, value)`: updates the cache and writes the whole map. */
    method Set(key: K, value: V, stored: map<K, V>)
      requires Valid()
      modifies this
      ensures Valid() && data == Some(old(Cached(stored))[key := value])
      ensures writes == old(writes) + [data.value]
    {
      Load(stored);
      data := Some(data.value[key := value]);
      writes := writes + [data.value];
    }

    /** `delete(key)`: whether the key was present; only a removal is written. */
    method Delete(key: K, stored: map<K, V>) returns (present: bool)
      requires Valid()
      modifies this
      ensures Valid() && present == (key in old(Cached(stored)))
      ensures data == Some(old(Cached(stored)) - {key})
      ensures writes == if present then old(writes) + [data.value] else old(writes)
    {
      Load(stored);
      present := key in data.value;
      data := Some(data.value - {key});
      if present {
        writes := writes + [data.value];
      }
    }

    /** `has(key)`. */
    method Has(key: K, stored: map<K, V>) returns (b: bool)
      requires Valid()
      modifies this
      ensures Valid() && data == Some(old(Cached(stored))) && writes == old(writes)
      ensures b == (key in data.value)
    {
      Load(stored);
      b := key in data.value;
    }

    /** `clear()`: drops the cache without writing; the next access loads again. */
    method Clear()
      modifies this
      ensures Valid() && data.None? && writes == old(writes)
    {
      data := None;
      loads := 0;
    }
  }

  /**
   * A write is visible to the next read, other keys keep their values, and the
   * getter is not called again while the map is cached, whatever it would return.
   */
  method SetThenGet<K(==), V(==)>(s: Storage<K, V>, key: K, other: K, value: V, stored: map<K, V>, later: map<K, V>)
    returns (r: Option<V>, r': Option<V>)
    requires s.Valid() && key != other
    modifies s
    ensures r == Some(value)
    ensures r' == if other in old(s.Cached(stored)) then Some(old(s.Cached(stored))[other]) else None
    ensures s.loads <= 1 && s.data == Some(old(s.Cached(stored))[key := value])
    ensures s.writes == old(s.writes) + [old(s.Cached(stored))[key := value]]
  {
    s.Set(key, value, stored);
    r := s.Get(key, later);
    r' := s.Get(other, later);
  }

  /** After `clear`, the next access reads what the getter returns now. */
  method ClearReloads<K(==), V(==)>(s: Storage<K, V>, key: K, stored: map<K, V>)
    returns (r: Option<V>)
    requires s.Valid()
    modifies s
    ensures r == if key in stored then Some(stored[key]) else None
    ensures s.loads == 1 && s.data == Some(stored)
  {
    s.Clear();
    r := s.Get(key, stored);
  }
}
