/**
 The demonstration scenario of main.py (`demo_memory_functions`), which drives
 the Rust store through its public operations, and a client of the Python
 store that clears twice. The console output is left out; what the scenario
 would print is returned instead, and the contracts state those values.
 */
module Demo {
  import opened KeyValue
  import RustExtension
  import PythonStore

  /** Whatever state earlier callers left the shared store in, the scenario
      sees 3 keys after the three stores, "26" after the update, 2 keys and an
      absent "ciudad" after the delete, and a batch count of 4 leading to 6 keys. */
  method DemoMemoryFunctions(store: RustExtension.GlobalMemory)
    returns (sizeAfterStores: nat, keysAfterStores: seq<Key>, nombre: Option<Value>,
             edad: Option<Value>, newEdad: Option<Value>, sizeAfterDelete: nat,
             ciudad: Option<Value>, inserted: nat, total: nat)
    modifies store
    ensures sizeAfterStores == 3
    ensures multiset(keysAfterStores) == multiset{"nombre", "edad", "ciudad"}
    ensures nombre == Some("Juan") && edad == Some("25") && newEdad == Some("26")
    ensures sizeAfterDelete == 2 && ciudad == None
    ensures inserted == 4 && total == 6
    ensures store.memory == map["nombre" := "Juan", "edad" := "26",
                                "producto1" := "laptop", "producto2" := "mouse",
                                "producto3" := "teclado", "producto4" := "monitor"]
  {
    var _ := store.MemoryClear();

    var _ := store.MemoryStore("nombre", "Juan");
    var _ := store.MemoryStore("edad", "25");
    var _ := store.MemoryStore("ciudad", "Madrid");
    DemoStores();
    sizeAfterStores := store.MemorySize();
    keysAfterStores := store.MemoryKeys();
    ListingsArePermutations(keysAfterStores, ["nombre", "edad", "ciudad"], store.memory);

    nombre := store.MemoryGet("nombre");
    edad := store.MemoryGet("edad");

    var _ := store.MemoryUpdate("edad", "26");
    newEdad := store.MemoryGet("edad");

    var _ := store.MemoryDelete("ciudad");
    DemoUpdateDelete();
    sizeAfterDelete := store.MemorySize();
    ciudad := store.MemoryGet("ciudad");

    var batch := [("producto1", "laptop"), ("producto2", "mouse"),
                  ("producto3", "teclado"), ("producto4", "monitor")];
    ghost var beforeBatch := store.memory;
    inserted := store.MemoryStoreBatch(batch);
    BatchOfNewKeys(beforeBatch, batch);
    total := store.MemorySize();
  }

  /** The state after the demo's three stores into an empty store. */
  lemma DemoStores()
    ensures Put(Put(Put(Empty(), "nombre", "Juan"), "edad", "25"), "ciudad", "Madrid")
            == map["nombre" := "Juan", "edad" := "25", "ciudad" := "Madrid"]
    ensures |map["nombre" := "Juan", "edad" := "25", "ciudad" := "Madrid"]| == 3
    ensures IsKeyListing(["nombre", "edad", "ciudad"],
                         map["nombre" := "Juan", "edad" := "25", "ciudad" := "Madrid"])
  {
  }

  /** The state after updating "edad" and deleting "ciudad". */
  lemma DemoUpdateDelete()
    ensures KeyValue.Delete(KeyValue.Update(map["nombre" := "Juan", "edad" := "25", "ciudad" := "Madrid"],
                                            "edad", "26"), "ciudad")
            == map["nombre" := "Juan", "edad" := "26"]
    ensures |map["nombre" := "Juan", "edad" := "26"]| == 2
  {
    PutSize(map["nombre" := "Juan"], "edad", "26");
    var m := map["nombre" := "Juan", "edad" := "26", "ciudad" := "Madrid"];
    assert m - {"ciudad"} == map["nombre" := "Juan", "edad" := "26"];
  }

  /** Clearing twice in a row: both calls succeed and the store is empty after each. */
  method ClearTwice(store: PythonStore.PythonMemoryStore)
    returns (first: bool, sizeAfterFirst: nat, second: bool, sizeAfterSecond: nat)
    modifies store
    ensures first && second
    ensures sizeAfterFirst == 0 && sizeAfterSecond == 0
    ensures store.entries == Empty()
  {
    first := store.Clear();
    sizeAfterFirst := store.Size();
    second := store.Clear();
    sizeAfterSecond := store.Size();
  }

  /** The demo's batch adds four keys the store does not hold yet. */
  lemma BatchOfNewKeys(m: Mapping, batch: seq<Pair>)
    requires m == map["nombre" := "Juan", "edad" := "26"]
    requires batch == [("producto1", "laptop"), ("producto2", "mouse"),
                       ("producto3", "teclado"), ("producto4", "monitor")]
    ensures PutAll(m, batch) == map["nombre" := "Juan", "edad" := "26",
                                    "producto1" := "laptop", "producto2" := "mouse",
                                    "producto3" := "teclado", "producto4" := "monitor"]
    ensures |PutAll(m, batch)| == 6
  {
    var m1 := Put(m, "producto1", "laptop");
    var m2 := Put(m1, "producto2", "mouse");
    var m3 := Put(m2, "producto3", "teclado");
    var m4 := Put(m3, "producto4", "monitor");
    assert PutAll(m, batch) == m4 by {
      var rest1, rest2, rest3 := batch[1..], batch[2..], batch[3..];
      assert rest1 == [("producto2", "mouse"), ("producto3", "teclado"), ("producto4", "monitor")];
      assert rest2 == [("producto3", "teclado"), ("producto4", "monitor")];
      assert rest3 == [("producto4", "monitor")];
      assert rest1[1..] == rest2 && rest2[1..] == rest3 && rest3[1..] == [];
      assert PutAll(m3, rest3) == m4;
      assert PutAll(m2, rest2) == m4;
      assert PutAll(m1, rest1) == m4;
    }
    PutSize(m, "producto1", "laptop");
    PutSize(m1, "producto2", "mouse");
    PutSize(m2, "producto3", "teclado");
    PutSize(m3, "producto4", "monitor");
    assert |m| == 2 by {
      PutSize(map["nombre" := "Juan"], "edad", "26");
    }
  }
}
