# In-memory text store, modelled in Dafny

The repository compares two implementations of one in-memory key-value store
that maps text keys to text values:

- `PythonMemoryStore` in `performance-python/main.py`, a class that wraps a
  `dict` and changes it in place;
- the `memory_*` functions of the Rust extension in `src/src/lib.rs`, which
  change one process-wide `HashMap` in place.

Both offer the same eight operations: store, get, update, delete, keys, size,
clear and store_batch. The Rust extension also has `sum_as_string`, which
returns the decimal text of the sum of two `usize` values.

## Layout

- `key_value.dfy`, module `KeyValue`: the contract both stores share. The
  state is a `map<string, string>`. The operations are pure functions of it:
  `Get`, `Put`, `Update`, `Delete`, `Empty` and `PutAll` (sequential batch
  insertion). The lemmas state what callers may rely on: reads after each
  write, size changes, key listings and last-write-wins batches.
- `python_store.dfy`, module `PythonStore`: class `PythonMemoryStore` with one
  field `entries` (the wrapped dict) and one method per Python method. Each
  method that changes the dict states its new value as a `KeyValue` function
  of the old value. `StoreBatch` is the source's `for` loop, with its
  invariant.
- `rust_extension.dfy`, module `RustExtension`: class `GlobalMemory`. It holds
  the shared map as a single-owner object, with one method per `memory_*`
  function. Its contracts use the same `KeyValue` functions, so the Rust and
  Python stores refine one contract. The module also holds `SumAsString` over
  a 64-bit `usize`, and `Remove`, which models `HashMap::remove`.
- `decimal.dfy`, module `Decimal`: decimal text of natural numbers
  (`NatToDecimal`) and its reading (`DecimalValue`), proved inverse to each
  other on canonical digit strings.
- `demo.dfy`, module `Demo`: the demonstration scenario of `main.py` run
  against the Rust store, and a client that clears the Python store twice.

Where the two sources differ, each class follows its own source. The Rust
delete goes through `remove(..).is_some()`, and the Rust batch takes its count
before the loop. The Python key list keeps insertion order, but the Rust
`HashMap` does not, so both key methods promise only a duplicate-free listing
of the present keys, in an unspecified order.

## Model

| member | source | states |
|---|---|---|
| `KeyValue.GetSomeIff` | performance-python/main.py:25-27 | a lookup gives `Some(v)` exactly when the key is bound to `v`, and `None` exactly when it is absent |
| `KeyValue.EmptyHasNothing` | performance-python/main.py:17-18 | a new store has size 0 and every lookup in it gives `None` |
| `KeyValue.GetAfterPut` | performance-python/main.py:20-23 | after storing `k`→`v`, `k` reads `v` and every other key reads as before |
| `KeyValue.PutKeys` | src/src/lib.rs:20-24 | storing adds its key to the key set and no other key |
| `KeyValue.UpdateSpec` | performance-python/main.py:29-34 | update of an absent key leaves the map unchanged; update of a present key sets it to `v`; the key set never changes; other keys read as before |
| `KeyValue.GetAfterDelete` | performance-python/main.py:36-41 | after deleting `k`, `k` is absent and every other key reads as before; deleting an absent key changes nothing |
| `KeyValue.PutSize` | performance-python/main.py:47-49 | storing raises the size by one exactly when the key was new, and otherwise leaves it unchanged |
| `KeyValue.DeleteSize` | src/src/lib.rs:47-50 | deleting lowers the size by exactly one when the key was present, and otherwise leaves it unchanged |
| `KeyValue.UpdateSize` | src/src/lib.rs:35-43 | updating never changes the size |
| `KeyValue.DistinctCardinality` | performance-python/main.py:43-45 | a duplicate-free list has as many entries as distinct elements |
| `KeyValue.ListingLengthIsSize` | src/src/lib.rs:54-64 | any duplicate-free listing of the present keys is as long as the size |
| `KeyValue.DistinctMultiplicity` | src/src/lib.rs:54-57 | in a duplicate-free key list each listed key occurs once and no other key occurs |
| `KeyValue.ListingsArePermutations` | src/src/lib.rs:54-57 | two key listings of one store differ only in order |
| `KeyValue.PutAllSnoc` | performance-python/main.py:58-59 | a batch with one more pair equals the shorter batch followed by one store of that pair |
| `KeyValue.PutAllAppend` | src/src/lib.rs:79-81 | inserting a batch in two parts equals inserting it at once |
| `KeyValue.PutAllKeys` | performance-python/main.py:56-60 | after a batch the keys are the old keys plus every key of the batch |
| `KeyValue.PutAllUntouched` | src/src/lib.rs:76-83 | a key that no pair of the batch names keeps its old binding, or stays absent |
| `KeyValue.PutAllLastWins` | performance-python/main.py:56-60 | after a batch, each key in it is bound to the value of its last pair |
| `KeyValue.BatchKeysBound` | src/src/lib.rs:76-83 | a batch has at most as many distinct keys as pairs |
| `KeyValue.PutAllSize` | src/src/lib.rs:76-83 | a batch never shrinks the store and grows it by at most the count `store_batch` returns |
| `PythonStore.PythonMemoryStore.constructor` | performance-python/main.py:17-18 | a new store holds the empty map |
| `PythonStore.PythonMemoryStore.Store` | performance-python/main.py:20-23 | returns true; the new map is the old one with `key` bound to `value` |
| `PythonStore.PythonMemoryStore.Get` | performance-python/main.py:25-27 | returns `Some(v)` exactly when `key` is bound to `v`, else `None`; changes nothing |
| `PythonStore.PythonMemoryStore.Update` | performance-python/main.py:29-34 | returns whether `key` was present; only then is `key` rebound to `value`, and otherwise the map is unchanged |
| `PythonStore.PythonMemoryStore.Delete` | performance-python/main.py:36-41 | returns whether `key` was present; afterwards `key` is absent and the rest of the map is unchanged |
| `PythonStore.PythonMemoryStore.Keys` | performance-python/main.py:43-45 | returns every present key exactly once, and as many keys as the size |
| `PythonStore.PythonMemoryStore.Size` | performance-python/main.py:47-49 | returns the number of present keys |
| `PythonStore.PythonMemoryStore.Clear` | performance-python/main.py:51-54 | returns true and leaves the map empty |
| `PythonStore.PythonMemoryStore.StoreBatch` | performance-python/main.py:56-60 | returns the number of pairs, counting repeats; the new map is the pairs stored one by one in order |
| `RustExtension.SumAsString` | src/src/lib.rs:7-9 | when `a + b` fits in `usize`, returns canonical decimal text whose value is `a + b` |
| `RustExtension.SumOfFiveAndTen` | performance-python/main.py:222-223 | the start-up call `sum_as_string(5, 10)` gives "15" |
| `RustExtension.Remove` | src/src/lib.rs:49 | `remove` returns the value that was bound, if any, and leaves the map without the key |
| `RustExtension.GlobalMemory.constructor` | src/src/lib.rs:14-16 | the shared map starts empty |
| `RustExtension.GlobalMemory.MemoryStore` | src/src/lib.rs:20-24 | returns true; only `key`'s binding changes, to `value` |
| `RustExtension.GlobalMemory.MemoryGet` | src/src/lib.rs:28-31 | returns `Some(v)` exactly when `key` is bound to `v`, else `None`; changes nothing |
| `RustExtension.GlobalMemory.MemoryUpdate` | src/src/lib.rs:35-43 | returns `contains_key`; only then is `key` rebound, and otherwise the map is unchanged |
| `RustExtension.GlobalMemory.MemoryDelete` | src/src/lib.rs:47-50 | returns whether a binding was removed; afterwards `key` is absent and the other keys are unchanged |
| `RustExtension.GlobalMemory.MemoryKeys` | src/src/lib.rs:54-57 | returns a duplicate-free list whose elements are exactly the present keys, as long as the size |
| `RustExtension.GlobalMemory.MemorySize` | src/src/lib.rs:61-64 | returns the number of present keys |
| `RustExtension.GlobalMemory.MemoryClear` | src/src/lib.rs:68-72 | returns true and leaves the map empty |
| `RustExtension.GlobalMemory.MemoryStoreBatch` | src/src/lib.rs:76-83 | returns `items.len()`; the new map is the pairs inserted one by one in order, so the last pair for a key wins |
| `Decimal.NatToDecimal` | src/src/lib.rs:8 | `to_string` of an unsigned number is non-empty, all digits, with no leading zero |
| `Decimal.DecimalValueOfNatToDecimal` | src/src/lib.rs:8 | reading back the text of `n` gives `n` |
| `Decimal.LeadingNonZeroIsPositive` | src/src/lib.rs:8 | digit text that does not start with '0' denotes a positive number |
| `Decimal.NatToDecimalOfDecimalValue` | src/src/lib.rs:8 | every canonical digit string is the text of its value, so each number has exactly one text |
| `Demo.DemoMemoryFunctions` | performance-python/main.py:139-183 | from any prior state: 3 keys (as a listing) after the three stores, "Juan" and "25" read back, "26" after the update, 2 keys and "ciudad" absent after the delete, a batch count of 4 and 6 keys at the end, and the final map |
| `Demo.DemoStores` | performance-python/main.py:151-156 | the three stores into an empty store give a 3-key map listed by the three keys |
| `Demo.DemoUpdateDelete` | performance-python/main.py:165-171 | updating "edad" and deleting "ciudad" leaves a 2-key map |
| `Demo.BatchOfNewKeys` | performance-python/main.py:174-183 | the four product pairs add four new keys, 6 in all |
| `Demo.ClearTwice` | performance-python/main.py:51-54 | clearing twice in a row succeeds both times and leaves size 0 after each call |

## Left out

- Console output, `time.time()` measurements, speed-up ratios and the
  10,000,000-iteration loops of the benchmarks (`performance-python/main.py`
  63-136 and 186-212), and the `main()` orchestration. They are I/O and
  floating point with no statable behaviour. The demo's printing is left out
  too: the observed values are returned instead.
- `sum_as_string_python` and the benchmark's `rust_extension` calls on the
  Python store: benchmark glue.
- `Arc<Mutex<..>>`, `lazy_static` and `.lock().unwrap()`: the model is
  sequential. The store is one object owned by its caller, and a poisoned
  mutex, which would make `unwrap` panic, cannot arise.
- The PyO3 module registration and the `PyResult` wrapping: binding plumbing.
  No `memory_*` function ever returns an error, so results are modelled bare.
- Iteration order of the key listings: the Python dict keeps insertion order,
  the Rust `HashMap` has no defined order. Both key methods promise only a
  duplicate-free listing of exactly the present keys.
- `RustExtension.SumAsString`: it requires `a + b` to fit in a 64-bit `usize`.
  The overflow itself (a panic in debug builds, wrap-around in release builds)
  is not modelled, and a 32-bit target is not modelled.
- Python's dynamic typing (a non-`str` key or value): the model takes text only.
