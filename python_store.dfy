/**
 The pure-Python store of main.py: class `PythonMemoryStore`, which wraps one
 mutable dictionary and updates it in place. The dictionary is the field
 `entries`; each method states its new state as a `KeyValue` function of the
 old one, so the properties proved in `KeyValue` carry over to this class.
 */
module PythonStore {
  import opened KeyValue

  class PythonMemoryStore {
    /** The wrapped dictionary (`self._store`). */
    var entries: Mapping

    /** A new store is empty. */
    constructor ()
      ensures entries == Empty()
    {
      entries := map[];
    }

    /** Insert or overwrite `key`; always reports success. */
    method Store(key: Key, value: Value) returns (ok: bool)
      modifies this
      ensures ok
      ensures entries == Put(old(entries), key, value)
    {
      entries := entries[key := value];
      ok := true;
    }

    /** The value bound to `key`, or `None`; the store is not changed. */
    method Get(key: Key) returns (r: Option<Value>)
      ensures r.Some? <==> key in entries
      ensures r.Some? ==> r.value == entries[key]
    {
      if key in entries {
        r := Some(entries[key]);
      } else {
        r := None;
      }
    }

    /** Overwrite `key` only if it is present; reports whether it was. */
    method Update(key: Key, value: Value) returns (ok: bool)
      modifies this
      ensures ok <==> key in old(entries)
      ensures entries == KeyValue.Update(old(entries), key, value)
    {
      if key in entries {
        entries := entries[key := value];
        return true;
      }
      return false;
    }

    /** Remove `key` only if it is present; reports whether it was. */
    method Delete(key: Key) returns (ok: bool)
      modifies this
      ensures ok <==> key in old(entries)
      ensures entries == KeyValue.Delete(old(entries), key)
    {
      if key in entries {
        entries := entries - {key};
        return true;
      }
      return false;
    }

    /** Every present key exactly once (`list(self._store.keys())`); as many keys as `Size` reports. */
    method Keys() returns (ks: seq<Key>)
      ensures IsKeyListing(ks, entries)
      ensures |ks| == |entries|
    {
      ks := [];
      var rest := entries.Keys;
      while rest != {}
        invariant rest <= entries.Keys
        invariant (set k | k in ks) == entries.Keys - rest
        invariant Distinct(ks)
        decreases rest
      {
        var k :| k in rest;
        assert (set x | x in ks + [k]) == (set x | x in ks) + {k};
        ks := ks + [k];
        rest := rest - {k};
      }
      ListingLengthIsSize(ks, entries);
    }

    /** The number of present keys. */
    method Size() returns (n: nat)
      ensures n == |entries.Keys|
    {
      n := |entries|;
    }

    /** Remove every entry; always reports success. */
    method Clear() returns (ok: bool)
      modifies this
      ensures ok
      ensures entries == Empty()
    {
      entries := map[];
      ok := true;
    }

    /** Store each pair in order (the last pair for a key wins); report the number of pairs. */
    method StoreBatch(items: seq<Pair>) returns (count: nat)
      modifies this
      ensures count == |items|
      ensures entries == PutAll(old(entries), items)
    {
      for i := 0 to |items|
        invariant entries == PutAll(old(entries), items[..i])
      {
        var (key, value) := items[i];
        entries := entries[key := value];
        PutAllSnoc(old(entries), items[..i], items[i]);
        assert items[..i + 1] == items[..i] + [items[i]];
      }
      assert items[..|items|] == items;
      count := |items|;
    }
  }
}
