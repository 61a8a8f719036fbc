/** The snapshot object: apply, rebuild from a block, and reads through the chain of previous snapshots. */
module SnapshotImpl {
  import opened Basics
  import opened SnapshotForest
  import opened SnapshotTables
  import opened BatchRead
  import opened WriteBatches

  ghost function Linked(s: Snapshot?): Link<Snapshot> {
    if s == null then Cut else var p: Snapshot := s; To(p)
  }

  class Snapshot {
    const header: Header
    const version: nat
    /** The header of the previous block, whether or not it has a snapshot. */
    ghost const parent: Header
    /** The number of snapshots made before. */
    ghost const made: nat
    var pre: Snapshot?
    var tables: Tables
    var sealed: bool

    constructor (header: Header, version: nat, ghost parent: Header, ghost made: nat)
      ensures this.header == header && this.version == version && this.parent == parent && this.made == made
      ensures pre == null && tables == Tables(map[], map[], [], [], map[]) && !sealed
    {
      this.header, this.version, this.parent, this.made := header, version, parent, made;
      pre, tables, sealed := null, Tables(map[], map[], [], [], map[]), false;
    }

    ghost function LayerOf(): Layer<Snapshot>
      reads this
    {
      Layer(made, header, parent, Values(tables.readTable), Values(tables.writeTable), Linked(pre))
    }

    /** apply: the lists are put one by one, then the transaction is appended. */
    method Apply(tx: Bytes, rw: RwSet, result: Bytes, success: bool)
      modifies this`tables
      ensures tables == ApplyTx(version, old(tables), tx, rw, result, success)
      ensures AppliedOne(version, old(tables), tx, rw, result, success, tables)
    {
      ApplyTxIs(version, tables, tx, rw, result, success);
      var index := |tables.txTable|;
      if version < READS_OF_FAILED_RUNS_DROPPED || success {
        for p := 0 to |rw.txReads|
          invariant tables == old(tables).(readTable := PutAll(old(tables.readTable), index, rw.txReads[..p]))
        {
          var e := rw.txReads[p];
          assert rw.txReads[..p + 1][..p] == rw.txReads[..p];
          tables := tables.(readTable := tables.readTable[FinalKey(e.item) := Cell(index, e.value)]);
        }
        assert rw.txReads[..|rw.txReads|] == rw.txReads;
      }
      ghost var reads' := tables.readTable;
      for p := 0 to |rw.txWrites|
        invariant tables == old(tables).(readTable := reads', writeTable := PutAll(old(tables.writeTable), index, rw.txWrites[..p]))
      {
        var e := rw.txWrites[p];
        assert rw.txWrites[..p + 1][..p] == rw.txWrites[..p];
        tables := tables.(writeTable := tables.writeTable[FinalKey(e.item) := Cell(index, e.value)]);
      }
      assert rw.txWrites[..|rw.txWrites|] == rw.txWrites;
      tables := tables.(rwSetTable := tables.rwSetTable + [rw], resultMap := tables.resultMap[tx := result],
                        txTable := tables.txTable + [tx]);
    }

    /** buildKVMaps for one list. */
    static method BuildKVMap(list: seq<Access>) returns (kvs: Table)
      ensures kvs == KeyValues(list)
    {
      kvs := map[];
      for p := 0 to |list|
        invariant kvs == KeyValues(list[..p])
      {
        assert list[..p + 1][..p] == list[..p];
        kvs := kvs[FinalKey(list[p].item) := list[p].value];
      }
      assert list[..|list|] == list;
    }

    /** A map put key by key in any order. */
    static method PutKVs(t: Cells, index: nat, kvs: Table) returns (t': Cells)
      ensures t' == PutMap(t, index, kvs)
    {
      t' := t;
      var todo := kvs.Keys;
      while todo != {}
        invariant todo <= kvs.Keys
        invariant t' == PutMap(t, index, map k | k in kvs && k !in todo :: kvs[k])
        decreases todo
      {
        var k :| k in todo;
        todo := todo - {k};
        t' := t'[k := Cell(index, kvs[k])];
      }
      assert (map k | k in kvs && k !in todo :: kvs[k]) == kvs;
    }

    /** applyOptimize: the prepared maps are put in any order, and the outcome is that of apply. */
    method ApplyOptimize(tx: Bytes, rw: RwSet, result: Bytes, success: bool, readKvs: Table, writeKvs: Table)
      requires readKvs == KeyValues(rw.txReads) && writeKvs == KeyValues(rw.txWrites)
      modifies this`tables
      ensures tables == ApplyTx(version, old(tables), tx, rw, result, success)
      ensures AppliedOne(version, old(tables), tx, rw, result, success, tables)
    {
      var index := |tables.txTable|;
      ApplyTxIs(version, tables, tx, rw, result, success);
      PutAllIsPutMap(tables.readTable, index, rw.txReads);
      PutAllIsPutMap(tables.writeTable, index, rw.txWrites);
      if version < READS_OF_FAILED_RUNS_DROPPED || success {
        var readTable := PutKVs(tables.readTable, index, readKvs);
        tables := tables.(readTable := readTable);
      }
      var writeTable := PutKVs(tables.writeTable, index, writeKvs);
      tables := tables.(writeTable := writeTable, rwSetTable := tables.rwSetTable + [rw],
                        resultMap := tables.resultMap[tx := result], txTable := tables.txTable + [tx]);
    }

    /** applyIteratorSecondRun and applyGasTxSimContext: the maps are built, then applied without a check. */
    method ApplyUnchecked(tx: Bytes, rw: RwSet, result: Bytes, success: bool)
      modifies this`tables
      ensures tables == ApplyTx(version, old(tables), tx, rw, result, success)
      ensures AppliedOne(version, old(tables), tx, rw, result, success, tables)
    {
      var readKvs := BuildKVMap(rw.txReads);
      var writeKvs := BuildKVMap(rw.txWrites);
      ApplyOptimize(tx, rw, result, success, readKvs, writeKvs);
    }

    /** ApplyBlock rebuilds the tables from a block; a block with the wrong number of read-write sets is refused. */
    method ApplyBlock(txs: seq<BlockTx>, rws: map<Bytes, RwSet>)
      requires |txs| == |rws| ==> forall i :: 0 <= i < |txs| ==> txs[i].id in rws
      modifies this`tables
      ensures |txs| != |rws| ==> tables == old(tables)
      ensures |txs| == |rws| ==> tables == ApplyAll(version, old(tables), txs, rws)
      ensures |txs| == |rws| ==> AppliedInOrder(old(tables), txs, rws, tables)
      ensures |txs| == |rws| ==> forall k :: ReadCell(version, old(tables), txs, rws, tables, k)
    {
      if |txs| != |rws| {
        return;
      }
      for p := 0 to |txs|
        invariant tables == ApplyAll(version, old(tables), txs[..p], rws)
      {
        assert txs[..p + 1][..p] == txs[..p];
        Apply(txs[p].id, rws[txs[p].id], txs[p].result, txs[p].success);
      }
      assert txs[..|txs|] == txs;
      ApplyAllInOrder(version, old(tables), txs, rws);
      forall k ensures ReadCell(version, old(tables), txs, rws, tables, k) {
        ApplyAllReads(version, old(tables), txs, rws, k);
      }
    }

    /** ApplyWritesToWriteTable: a sealed snapshot refuses; otherwise the writes are put as a whole, and where the batches
        that write a key agree on its last value the outcome is that of the serial loop. */
    method ApplyWritesToWriteTable(writes: seq<Access>)
      modifies this`tables
      ensures sealed ==> tables == old(tables)
      ensures tables == old(tables).(writeTable := tables.writeTable)
      ensures !sealed ==>
                && PutByWorkers(old(tables.writeTable), |old(tables.txTable)|, writes, tables.writeTable)
                && (PlanAgrees(writes) || DistinctKeys(writes) ==>
                      tables.writeTable == PutAll(old(tables.writeTable), |old(tables.txTable)|, writes))
    {
      if sealed {
        return;
      }
      var writeTable := ApplyWrites(tables.writeTable, |tables.txTable|, writes);
      tables := tables.(writeTable := writeTable);
    }

    /** GetKey: own tables, then the previous snapshots one after the other while they fail, then the store. */
    method GetKey(ghost all: set<Snapshot>, store: Store, it: Item) returns (r: Result<Value>)
      requires this in all && Closed(ForestOf(all))
      ensures r == Lookup(ForestOf(all), this, store, it)
      decreases made
    {
      ghost var f := ForestOf(all);
      var k := FinalKey(it);
      if k in tables.writeTable {
        return Ok(tables.writeTable[k].value);
      }
      if k in tables.readTable {
        return Ok(tables.readTable[k].value);
      }
      var iter := pre;
      while iter != null
        invariant iter != null ==> iter in all && iter.made < made
        invariant Lookup(f, this, store, it) == LookupAt(f, Linked(iter), store, it)
        decreases if iter == null then 0 else iter.made + 1
      {
        r := iter.GetKey(all, store, it);
        if r.Ok? {
          return;
        }
        ErrBelow(f, iter, store, it);
        iter := iter.pre;
      }
      r := store(it);
    }

    /** getBatchFromWriteSet, getBatchFromReadSet */
    static method GetBatch(t: Cells, keys: seq<Item>) returns (found: seq<Got>, missing: seq<Item>)
      ensures found == Hits(Values(t), keys) && missing == Misses(Values(t), keys)
    {
      found, missing := [], [];
      for p := 0 to |keys|
        invariant found == Hits(Values(t), keys[..p]) && missing == Misses(Values(t), keys[..p])
      {
        assert keys[..p + 1][..p] == keys[..p];
        var k := FinalKey(keys[p]);
        if k in t {
          found := found + [Got(keys[p], t[k].value)];
        } else {
          missing := missing + [keys[p]];
        }
      }
      assert keys[..|keys|] == keys;
    }

    /** GetKeys: the keys that neither table has go to the previous snapshots, then to the store. */
    method GetKeys(ghost all: set<Snapshot>, store: Store, keys: seq<Item>) returns (r: Result<seq<Got>>)
      requires this in all && Closed(ForestOf(all))
      ensures r == BatchRead.GetKeys(ForestOf(all), this, store, keys)
      decreases made
    {
      ghost var f := ForestOf(all);
      var written, rest := GetBatch(tables.writeTable, keys);
      if rest == [] {
        return Ok(written);
      }
      var cached, rest' := GetBatch(tables.readTable, rest);
      if rest' == [] {
        return Ok(cached + written);
      }
      r := GetKeysBelow(all, store, rest');
      if r.Ok? {
        r := Ok(r.value + (cached + written));
      }
    }

    /** The walk along the previous snapshots while they fail, then the store. */
    method GetKeysBelow(ghost all: set<Snapshot>, store: Store, keys: seq<Item>) returns (r: Result<seq<Got>>)
      requires this in all && Closed(ForestOf(all))
      ensures r == GetBelow(ForestOf(all), ForestOf(all)[this].pre, store, keys)
      decreases made, 0
    {
      ghost var f := ForestOf(all);
      var iter := pre;
      while iter != null
        invariant iter != null ==> iter in all && iter.made < made
        invariant GetBelow(f, f[this].pre, store, keys) == GetBelow(f, Linked(iter), store, keys)
        decreases if iter == null then 0 else iter.made + 1
      {
        r := iter.GetKeys(all, store, keys);
        if r.Ok? {
          return;
        }
        iter := iter.pre;
      }
      r := GetObjects(store, keys);
    }
  }

  /** The layers of a set of snapshots. */
  ghost function ForestOf(all: set<Snapshot>): Forest<Snapshot>
    reads all
  {
    map s | s in all :: s.LayerOf()
  }
}
