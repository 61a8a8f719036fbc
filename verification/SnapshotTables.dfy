/** What applying transactions does to the tables of a snapshot. */
module SnapshotTables {
  import opened Basics
  import opened SnapshotForest

  datatype Access = Access(item: Item, value: Value)

  /** A transaction's read-write set, as lists. */
  datatype RwSet = RwSet(txReads: seq<Access>, txWrites: seq<Access>)

  type Cells = map<Bytes, Cell>

  /** txTable by transaction id, txRWSetTable, txResultMap and the two tables. */
  datatype Tables = Tables(readTable: Cells, writeTable: Cells, txTable: seq<Bytes>, rwSetTable: seq<RwSet>,
                           resultMap: map<Bytes, Bytes>)

  function Values(t: Cells): Table {
    map k | k in t :: t[k].value
  }

  /** The list put one after the other: the last value of a key stays. */
  function PutAll(t: Cells, index: nat, list: seq<Access>): Cells {
    if list == [] then t
    else
      var e := list[|list| - 1];
      PutAll(t, index, list[..|list| - 1])[FinalKey(e.item) := Cell(index, e.value)]
  }

  /** The list as a map from table keys: the last value of a key stays. */
  function KeyValues(list: seq<Access>): Table {
    if list == [] then map[]
    else
      var e := list[|list| - 1];
      KeyValues(list[..|list| - 1])[FinalKey(e.item) := e.value]
  }

  /** A map put in any order. */
  function PutMap(t: Cells, index: nat, kvs: Table): Cells {
    map k | k in t.Keys + kvs.Keys :: if k in kvs then Cell(index, kvs[k]) else t[k]
  }

  /** Putting the list is putting its map. */
  lemma {:induction false} PutAllIsPutMap(t: Cells, index: nat, list: seq<Access>)
    ensures PutAll(t, index, list) == PutMap(t, index, KeyValues(list))
    decreases |list|
  {
    if list == [] {
    } else {
      PutAllIsPutMap(t, index, list[..|list| - 1]);
    }
  }

  /** One transaction applied. */
  function ApplyTx(version: nat, t: Tables, tx: Bytes, rw: RwSet, result: Bytes, success: bool): Tables {
    var index := |t.txTable|;
    Tables(if version < READS_OF_FAILED_RUNS_DROPPED || success then PutAll(t.readTable, index, rw.txReads) else t.readTable,
           PutAll(t.writeTable, index, rw.txWrites),
           t.txTable + [tx], t.rwSetTable + [rw], t.resultMap[tx := result])
  }

  /** The cell of `k` after the list was put: from the last entry for the key, or as it was. */
  ghost predicate KeyPut(t: Cells, index: nat, list: seq<Access>, t': Cells, k: Bytes) {
    && (k in t' <==> k in t || HasKey(list, k))
    && (forall p :: IsLastEntry(list, k, p) ==> k in t' && t'[k] == Cell(index, list[p].value))
    && (k in t && !HasKey(list, k) ==> k in t' && t'[k] == t[k])
  }

  predicate HasKey(list: seq<Access>, k: Bytes) {
    exists p :: 0 <= p < |list| && FinalKey(list[p].item) == k
  }

  /** Entry `p` is the last one for the key. */
  predicate IsLastEntry(list: seq<Access>, k: Bytes, p: int) {
    && 0 <= p < |list| && FinalKey(list[p].item) == k
    && forall q :: p < q < |list| ==> FinalKey(list[q].item) != k
  }

  lemma FrontEntries(list: seq<Access>, k: Bytes)
    requires list != [] && FinalKey(list[|list| - 1].item) != k
    ensures HasKey(list, k) <==> HasKey(list[..|list| - 1], k)
    ensures forall p :: IsLastEntry(list, k, p) ==> p < |list| - 1 && IsLastEntry(list[..|list| - 1], k, p)
  {
    var front := list[..|list| - 1];
    if HasKey(front, k) {
      var p :| 0 <= p < |front| && FinalKey(front[p].item) == k;
      assert FinalKey(list[p].item) == k;
    }
    if HasKey(list, k) {
      var p :| 0 <= p < |list| && FinalKey(list[p].item) == k;
      assert FinalKey(front[p].item) == k;
    }
  }

  /** One more entry: for another key, */
  lemma KeyPutOther(t: Cells, index: nat, list: seq<Access>, t0: Cells, t': Cells, k: Bytes)
    requires list != [] && KeyPut(t, index, list[..|list| - 1], t0, k) && FinalKey(list[|list| - 1].item) != k
    requires (k in t' <==> k in t0) && (k in t0 ==> t'[k] == t0[k])
    ensures KeyPut(t, index, list, t', k)
  {
    FrontEntries(list, k);
  }

  /** or for this one. */
  lemma KeyPutThis(t: Cells, index: nat, list: seq<Access>, t': Cells, k: Bytes)
    requires list != [] && FinalKey(list[|list| - 1].item) == k && k in t' && t'[k] == Cell(index, list[|list| - 1].value)
    ensures KeyPut(t, index, list, t', k)
  {
  }

  lemma {:induction false} PutAllIs(t: Cells, index: nat, list: seq<Access>, k: Bytes)
    ensures KeyPut(t, index, list, PutAll(t, index, list), k)
    decreases |list|
  {
    if list == [] {
    } else if FinalKey(list[|list| - 1].item) == k {
      KeyPutThis(t, index, list, PutAll(t, index, list), k);
    } else {
      var front := list[..|list| - 1];
      PutAllIs(t, index, front, k);
      KeyPutOther(t, index, list, PutAll(t, index, front), PutAll(t, index, list), k);
    }
  }

  ghost predicate ListPut(t: Cells, index: nat, list: seq<Access>, t': Cells) {
    forall k :: KeyPut(t, index, list, t', k)
  }

  /** What one transaction leaves: it comes last in the three lists, its writes are in the write table under its index, and
      its reads in the read table, unless it failed and the block version is 2201 or later. */
  ghost predicate AppliedOne(version: nat, t: Tables, tx: Bytes, rw: RwSet, result: Bytes, success: bool, t': Tables) {
    && t'.txTable == t.txTable + [tx] && t'.rwSetTable == t.rwSetTable + [rw] && t'.resultMap == t.resultMap[tx := result]
    && ListPut(t.writeTable, |t.txTable|, rw.txWrites, t'.writeTable)
    && (version < 2201 || success ==> ListPut(t.readTable, |t.txTable|, rw.txReads, t'.readTable))
    && (version >= 2201 && !success ==> t'.readTable == t.readTable)
  }

  lemma ApplyTxIs(version: nat, t: Tables, tx: Bytes, rw: RwSet, result: Bytes, success: bool)
    ensures AppliedOne(version, t, tx, rw, result, success, ApplyTx(version, t, tx, rw, result, success))
  {
    forall k ensures KeyPut(t.writeTable, |t.txTable|, rw.txWrites, PutAll(t.writeTable, |t.txTable|, rw.txWrites), k) {
      PutAllIs(t.writeTable, |t.txTable|, rw.txWrites, k);
    }
    forall k ensures KeyPut(t.readTable, |t.txTable|, rw.txReads, PutAll(t.readTable, |t.txTable|, rw.txReads), k) {
      PutAllIs(t.readTable, |t.txTable|, rw.txReads, k);
    }
  }

  /** A transaction of a block: its id, result text and whether it succeeded. */
  datatype BlockTx = BlockTx(id: Bytes, result: Bytes, success: bool)

  /** The transactions of a block applied one after the other. */
  function ApplyAll(version: nat, t: Tables, txs: seq<BlockTx>, rws: map<Bytes, RwSet>): Tables
    requires forall i :: 0 <= i < |txs| ==> txs[i].id in rws
  {
    if txs == [] then t
    else
      var tx := txs[|txs| - 1];
      ApplyTx(version, ApplyAll(version, t, txs[..|txs| - 1], rws), tx.id, rws[tx.id], tx.result, tx.success)
  }

  /** The block's transactions follow those that were there, in block order, each with its own read-write set at the same
      place; a result is that of the last transaction with the id. */
  ghost predicate AppliedInOrder(t: Tables, txs: seq<BlockTx>, rws: map<Bytes, RwSet>, t': Tables)
    requires forall i :: 0 <= i < |txs| ==> txs[i].id in rws
  {
    && |t'.txTable| == |t.txTable| + |txs| && |t'.rwSetTable| == |t.rwSetTable| + |txs|
    && t.txTable <= t'.txTable && t.rwSetTable <= t'.rwSetTable
    && (forall i :: 0 <= i < |txs| ==> t'.txTable[|t.txTable| + i] == txs[i].id)
    && (forall i :: 0 <= i < |txs| ==> t'.rwSetTable[|t.rwSetTable| + i] == rws[txs[i].id])
    && (forall id :: ResultKept(t, txs, t', id))
  }

  /** Transaction `p` is the last one with the id. */
  predicate IsLastTx(txs: seq<BlockTx>, id: Bytes, p: int) {
    0 <= p < |txs| && txs[p].id == id && forall q :: p < q < |txs| ==> txs[q].id != id
  }

  ghost predicate ResultKept(t: Tables, txs: seq<BlockTx>, t': Tables, id: Bytes) {
    && (id in t'.resultMap <==> id in t.resultMap || exists p :: 0 <= p < |txs| && txs[p].id == id)
    && (forall p :: IsLastTx(txs, id, p) ==> id in t'.resultMap && t'.resultMap[id] == txs[p].result)
    && (id in t.resultMap && (forall p :: 0 <= p < |txs| ==> txs[p].id != id) ==>
          id in t'.resultMap && t'.resultMap[id] == t.resultMap[id])
  }

  lemma ResultStep(t: Tables, txs: seq<BlockTx>, t0: Tables, t': Tables, id: Bytes)
    requires txs != [] && ResultKept(t, txs[..|txs| - 1], t0, id)
    requires t'.resultMap == t0.resultMap[txs[|txs| - 1].id := txs[|txs| - 1].result]
    ensures ResultKept(t, txs, t', id)
  {
    var n, front := |txs| - 1, txs[..|txs| - 1];
    forall p | IsLastTx(txs, id, p) ensures id in t'.resultMap && t'.resultMap[id] == txs[p].result {
      if p < n {
        assert IsLastTx(front, id, p);
      }
    }
    assert forall p :: 0 <= p < n ==> front[p] == txs[p];
  }

  lemma {:induction false} ApplyAllInOrder(version: nat, t: Tables, txs: seq<BlockTx>, rws: map<Bytes, RwSet>)
    requires forall i :: 0 <= i < |txs| ==> txs[i].id in rws
    ensures AppliedInOrder(t, txs, rws, ApplyAll(version, t, txs, rws))
    decreases |txs|
  {
    if txs == [] {
    } else {
      var front := txs[..|txs| - 1];
      ApplyAllInOrder(version, t, front, rws);
      forall id ensures ResultKept(t, txs, ApplyAll(version, t, txs, rws), id) {
        assert ResultKept(t, front, ApplyAll(version, t, front, rws), id);
        ResultStep(t, txs, ApplyAll(version, t, front, rws), ApplyAll(version, t, txs, rws), id);
      }
    }
  }

  /** Transaction `i` puts a read of the key into the read table. */
  predicate Caches(version: nat, txs: seq<BlockTx>, rws: map<Bytes, RwSet>, k: Bytes, i: int) {
    && 0 <= i < |txs| && txs[i].id in rws && (version < 2201 || txs[i].success)
    && HasKey(rws[txs[i].id].txReads, k)
  }

  ghost predicate Cached(version: nat, txs: seq<BlockTx>, rws: map<Bytes, RwSet>, k: Bytes) {
    exists i :: Caches(version, txs, rws, k, i)
  }

  predicate IsLastCacher(version: nat, txs: seq<BlockTx>, rws: map<Bytes, RwSet>, k: Bytes, i: int) {
    Caches(version, txs, rws, k, i) && forall j :: i < j < |txs| ==> !Caches(version, txs, rws, k, j)
  }

  /** The read-table cell of `k` after a block: from the last transaction that puts a read of it, or as it was. */
  ghost predicate ReadCell(version: nat, t: Tables, txs: seq<BlockTx>, rws: map<Bytes, RwSet>, t': Tables, k: Bytes) {
    && (k in t'.readTable <==> k in t.readTable || Cached(version, txs, rws, k))
    && (forall i :: IsLastCacher(version, txs, rws, k, i) ==> CachedFrom(t, txs, rws, t', k, i))
    && (k in t.readTable && !Cached(version, txs, rws, k) ==> k in t'.readTable && t'.readTable[k] == t.readTable[k])
  }

  /** The cell has the last value that transaction `i` read for the key, and its index. */
  ghost predicate CachedFrom(t: Tables, txs: seq<BlockTx>, rws: map<Bytes, RwSet>, t': Tables, k: Bytes, i: int)
    requires 0 <= i < |txs| && txs[i].id in rws
  {
    forall p :: IsLastEntry(rws[txs[i].id].txReads, k, p) ==>
      k in t'.readTable && t'.readTable[k] == Cell(|t.txTable| + i, rws[txs[i].id].txReads[p].value)
  }

  lemma FrontCachers(version: nat, txs: seq<BlockTx>, rws: map<Bytes, RwSet>, k: Bytes)
    requires txs != [] && !Caches(version, txs, rws, k, |txs| - 1)
    ensures Cached(version, txs, rws, k) <==> Cached(version, txs[..|txs| - 1], rws, k)
    ensures forall i :: IsLastCacher(version, txs, rws, k, i) ==>
              i < |txs| - 1 && IsLastCacher(version, txs[..|txs| - 1], rws, k, i)
  {
    var front := txs[..|txs| - 1];
    assert forall i :: 0 <= i < |front| ==> front[i] == txs[i];
    forall i ensures Caches(version, front, rws, k, i) <==> Caches(version, txs, rws, k, i) {
    }
  }

  lemma ReadCellOther(version: nat, t: Tables, txs: seq<BlockTx>, rws: map<Bytes, RwSet>, t0: Tables, t': Tables, k: Bytes)
    requires txs != [] && !Caches(version, txs, rws, k, |txs| - 1) && ReadCell(version, t, txs[..|txs| - 1], rws, t0, k)
    requires (k in t'.readTable <==> k in t0.readTable) && (k in t0.readTable ==> t'.readTable[k] == t0.readTable[k])
    ensures ReadCell(version, t, txs, rws, t', k)
  {
    FrontCachers(version, txs, rws, k);
    var front := txs[..|txs| - 1];
    forall i | IsLastCacher(version, txs, rws, k, i) ensures CachedFrom(t, txs, rws, t', k, i) {
      assert CachedFrom(t, front, rws, t0, k, i) && front[i] == txs[i];
    }
  }

  lemma ReadCellThis(version: nat, t: Tables, txs: seq<BlockTx>, rws: map<Bytes, RwSet>, t0: Tables, t': Tables, k: Bytes)
    requires txs != [] && Caches(version, txs, rws, k, |txs| - 1) && |t0.txTable| == |t.txTable| + |txs| - 1
    requires KeyPut(t0.readTable, |t0.txTable|, rws[txs[|txs| - 1].id].txReads, t'.readTable, k)
    ensures ReadCell(version, t, txs, rws, t', k)
  {
    assert IsLastCacher(version, txs, rws, k, |txs| - 1);
  }

  lemma {:induction false} ApplyAllReads(version: nat, t: Tables, txs: seq<BlockTx>, rws: map<Bytes, RwSet>, k: Bytes)
    requires forall i :: 0 <= i < |txs| ==> txs[i].id in rws
    ensures ReadCell(version, t, txs, rws, ApplyAll(version, t, txs, rws), k)
    decreases |txs|
  {
    if txs == [] {
    } else {
      var front, tx := txs[..|txs| - 1], txs[|txs| - 1];
      var t0, t' := ApplyAll(version, t, front, rws), ApplyAll(version, t, txs, rws);
      ApplyAllInOrder(version, t, front, rws);
      ApplyAllReads(version, t, front, rws, k);
      PutAllIs(t0.readTable, |t0.txTable|, rws[tx.id].txReads, k);
      if Caches(version, txs, rws, k, |txs| - 1) {
        ReadCellThis(version, t, txs, rws, t0, t', k);
      } else {
        ReadCellOther(version, t, txs, rws, t0, t', k);
      }
    }
  }

  /** The tables are index-aligned: one read-write set per transaction, and the cell of a key names the last
      transaction that wrote it and holds that transaction's last value. */
  ghost predicate Aligned(t: Tables) {
    && |t.txTable| == |t.rwSetTable|
    && (forall i :: 0 <= i < |t.txTable| ==> t.txTable[i] in t.resultMap)
    && (forall k :: CellAligned(t, k))
  }

  predicate CellAligned(t: Tables, k: Bytes) {
    if k in t.writeTable then
      && t.writeTable[k].index < |t.rwSetTable|
      && k in KeyValues(t.rwSetTable[t.writeTable[k].index].txWrites)
      && t.writeTable[k].value == KeyValues(t.rwSetTable[t.writeTable[k].index].txWrites)[k]
      && forall j :: t.writeTable[k].index < j < |t.rwSetTable| ==> k !in KeyValues(t.rwSetTable[j].txWrites)
    else
      forall j :: 0 <= j < |t.rwSetTable| ==> k !in KeyValues(t.rwSetTable[j].txWrites)
  }

  lemma ApplyTxAligned(version: nat, t: Tables, tx: Bytes, rw: RwSet, result: Bytes, success: bool)
    requires Aligned(t)
    ensures Aligned(ApplyTx(version, t, tx, rw, result, success))
  {
    var t' := ApplyTx(version, t, tx, rw, result, success);
    forall k ensures CellAligned(t', k) {
      assert CellAligned(t, k);
      PutAllIsPutMap(t.writeTable, |t.txTable|, rw.txWrites);
      ghost var n := |t.rwSetTable|;
      assert t'.rwSetTable[n] == rw && forall j :: 0 <= j < n ==> t'.rwSetTable[j] == t.rwSetTable[j];
    }
  }

  lemma {:induction false} ApplyAllAligned(version: nat, t: Tables, txs: seq<BlockTx>, rws: map<Bytes, RwSet>)
    requires Aligned(t) && forall i :: 0 <= i < |txs| ==> txs[i].id in rws
    ensures Aligned(ApplyAll(version, t, txs, rws))
    decreases |txs|
  {
    if txs == [] {
    } else {
      var tx := txs[|txs| - 1];
      ApplyAllAligned(version, t, txs[..|txs| - 1], rws);
      ApplyTxAligned(version, ApplyAll(version, t, txs[..|txs| - 1], rws), tx.id, rws[tx.id], tx.result, tx.success);
    }
  }

  /** A cell after a put comes from the list or was there. */
  lemma {:induction false} PutAllFrom(t: Cells, index: nat, list: seq<Access>, k: Bytes)
    requires k in PutAll(t, index, list)
    ensures || (exists p :: 0 <= p < |list| && FinalKey(list[p].item) == k && list[p].value == PutAll(t, index, list)[k].value)
            || (k in t && t[k] == PutAll(t, index, list)[k])
    ensures (forall p :: 0 <= p < |list| ==> FinalKey(list[p].item) != k) ==> k in t
    decreases |list|
  {
    if list == [] || FinalKey(list[|list| - 1].item) == k {
    } else {
      PutAllFrom(t, index, list[..|list| - 1], k);
    }
  }

  lemma {:induction false} PutAllKeeps(t: Cells, index: nat, list: seq<Access>, k: Bytes)
    requires k in t
    ensures k in PutAll(t, index, list)
    decreases |list|
  {
    if list == [] {
    } else {
      PutAllKeeps(t, index, list[..|list| - 1], k);
    }
  }

  /** Every read is of an item of `items`, and is of a key the snapshot has written or is what lies below it. */
  ghost predicate Faithful<I>(f: Forest<I>, s: I, items: iset<Item>, store: Store, txReads: seq<Access>, written: Cells)
    requires Closed(f) && s in f
  {
    forall e :: e in txReads ==>
      e.item in items && (FinalKey(e.item) in written || Ok(e.value) == Below(f, s, store, e.item))
  }

  /** Applying a transaction with faithful reads leaves the read table sound. */
  lemma ApplySound<I>(f: Forest<I>, g: Forest<I>, s: I, items: iset<Item>, store: Store, version: nat, t: Tables,
                      tx: Bytes, rw: RwSet, result: Bytes, success: bool)
    requires Closed(f) && Closed(g) && Retabled(f, g, s) && Separated(items)
    requires f[s].cached == Values(t.readTable) && f[s].written == Values(t.writeTable)
    requires var t' := ApplyTx(version, t, tx, rw, result, success);
             && g[s].cached == Values(t'.readTable) && g[s].written == Values(t'.writeTable)
             && Faithful(f, s, items, store, rw.txReads, t'.writeTable)
    requires CacheSound(f, items, store, s)
    ensures CacheSound(g, items, store, s)
  {
    var t' := ApplyTx(version, t, tx, rw, result, success);
    forall it | it in items && FinalKey(it) in g[s].cached && FinalKey(it) !in g[s].written
      ensures Ok(g[s].cached[FinalKey(it)]) == Below(g, s, store, it)
    {
      var k := FinalKey(it);
      if f[s].pre.To? && Reaches(f, f[s].pre.id, s) {
        ReachedIsOlder(f, f[s].pre.id, s);
      }
      RetabledBelow(f, g, s, store, s, it);
      if k in t.writeTable {
        PutAllKeeps(t.writeTable, |t.txTable|, rw.txWrites, k);
      }
      if t'.readTable != t.readTable {
        PutAllFrom(t.readTable, |t.txTable|, rw.txReads, k);
      }
    }
  }
}
