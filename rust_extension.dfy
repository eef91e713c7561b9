/**
 The Rust extension of lib.rs: `sum_as_string` and the `memory_*` functions.

 The Rust side keeps one process-wide `HashMap<String, String>` behind a mutex.
 Here that map is the field `memory` of a single-owner object `GlobalMemory`,
 created once (the lazy static initialisation) and passed to every call; each
 `memory_*` function is a method of it. Their contracts are the same `KeyValue`
 functions as the Python class's, so both implementations refine one contract.
 */
module RustExtension {
  import opened KeyValue
  import Decimal

  /** Rust's `usize` on a 64-bit target. */
  newtype usize = x: int | 0 <= x < 0x1_0000_0000_0000_0000

  /** The decimal text of `a + b`; the sum must fit in `usize`. */
  function SumAsString(a: usize, b: usize): (r: string)
    requires a as int + b as int < 0x1_0000_0000_0000_0000
    ensures Decimal.IsCanonical(r)
    ensures Decimal.DecimalValue(r) == a as int + b as int
  {
    Decimal.DecimalValueOfNatToDecimal(a as int + b as int);
    Decimal.NatToDecimal(a as int + b as int)
  }

  /** The call made at start-up: the text of 5 + 10 is "15". */
  lemma SumOfFiveAndTen()
    ensures SumAsString(5, 10) == "15"
  {
  }

  /** `HashMap::remove`: the value that was bound to `k` (if any) and the map without `k`. */
  function Remove(m: Mapping, k: Key): (r: (Option<Value>, Mapping))
    ensures r.0 == KeyValue.Get(m, k)
    ensures r.1 == KeyValue.Delete(m, k)
  {
    if k in m then (Some(m[k]), m - {k}) else (None, m)
  }

  class GlobalMemory {
    /** The shared map (`MEMORY_STORE`). */
    var memory: Mapping

    /** The lazy static starts as `HashMap::new()`. */
    constructor ()
      ensures memory == Empty()
    {
      memory := map[];
    }

    /** `memory_store`: insert or overwrite; always `true`. */
    method MemoryStore(key: Key, value: Value) returns (ok: bool)
      modifies this
      ensures ok
      ensures memory == Put(old(memory), key, value)
    {
      memory := memory[key := value];
      ok := true;
    }

    /** `memory_get`: `Some(v)` exactly when `key` is bound to `v`; the map is not changed. */
    method MemoryGet(key: Key) returns (r: Option<Value>)
      ensures r.Some? <==> key in memory
      ensures r.Some? ==> r.value == memory[key]
    {
      r := if key in memory then Some(memory[key]) else None;
    }

    /** `memory_update`: overwrite only when `contains_key` holds, and return that condition. */
    method MemoryUpdate(key: Key, value: Value) returns (ok: bool)
      modifies this
      ensures ok <==> key in old(memory)
      ensures memory == KeyValue.Update(old(memory), key, value)
    {
      if key in memory {
        memory := memory[key := value];
        ok := true;
      } else {
        ok := false;
      }
    }

    /** `memory_delete`: `remove(..).is_some()`, true exactly when a binding was removed. */
    method MemoryDelete(key: Key) returns (ok: bool)
      modifies this
      ensures ok <==> key in old(memory)
      ensures memory == KeyValue.Delete(old(memory), key)
    {
      var (removed, rest) := Remove(memory, key);
      memory := rest;
      ok := removed.Some?;
    }

    /** `memory_keys`: the keys collected from the map's iterator, in unspecified order. */
    method MemoryKeys() returns (ks: seq<Key>)
      ensures IsKeyListing(ks, memory)
      ensures |ks| == |memory|
    {
      ks := [];
      var unvisited := memory.Keys;
      while unvisited != {}
        invariant unvisited <= memory.Keys
        invariant (set k | k in ks) == memory.Keys - unvisited
        invariant Distinct(ks)
        decreases unvisited
      {
        var k :| k in unvisited;
        assert (set x | x in ks + [k]) == (set x | x in ks) + {k};
        ks := ks + [k];
        unvisited := unvisited - {k};
      }
      ListingLengthIsSize(ks, memory);
    }

    /** `memory_size`: the number of bindings. */
    method MemorySize() returns (n: nat)
      ensures n == |memory.Keys|
    {
      n := |memory|;
    }

    /** `memory_clear`: empty the map; always `true`. */
    method MemoryClear() returns (ok: bool)
      modifies this
      ensures ok
      ensures memory == Empty()
    {
      memory := map[];
      ok := true;
    }

    /** `memory_store_batch`: the count is taken before the loop, then each pair is inserted in order. */
    method MemoryStoreBatch(items: seq<Pair>) returns (count: nat)
      modifies this
      ensures count == |items|
      ensures memory == PutAll(old(memory), items)
    {
      count := |items|;
      for i := 0 to |items|
        invariant memory == PutAll(old(memory), items[..i])
      {
        var (key, value) := items[i];
        memory := memory[key := value];
        PutAllSnoc(old(memory), items[..i], items[i]);
        assert items[..i + 1] == items[..i] + [items[i]];
      }
      assert items[..|items|] == items;
    }
  }
}
