/** Snapshots seen item by item: what a chain of snapshots built by transactions should answer, and when its tables, which
    are keyed by contract name and key run together, do answer it. */
module SnapshotItems {
  import opened Basics
  import opened SnapshotForest
  import opened SnapshotTables

  // --- one snapshot ---

  /** The last value of every item in the list. */
  function LastValues(list: seq<Access>): map<Item, Value> {
    if list == [] then map[]
    else
      var e := list[|list| - 1];
      LastValues(list[..|list| - 1])[e.item := e.value]
  }

  /** The last value every item was given by the transactions. */
  function ItemWrites(rws: seq<RwSet>): map<Item, Value> {
    if rws == [] then map[]
    else ItemWrites(rws[..|rws| - 1]) + LastValues(rws[|rws| - 1].txWrites)
  }

  predicate Lists(list: seq<Access>, it: Item) {
    exists p :: 0 <= p < |list| && list[p].item == it
  }

  /** Entry `p` is the last one for the item. */
  predicate IsLastFor(list: seq<Access>, it: Item, p: int) {
    0 <= p < |list| && list[p].item == it && forall q :: p < q < |list| ==> list[q].item != it
  }

  lemma FrontLists(list: seq<Access>, it: Item)
    requires list != [] && list[|list| - 1].item != it
    ensures Lists(list, it) <==> Lists(list[..|list| - 1], it)
    ensures forall p :: IsLastFor(list, it, p) ==> p < |list| - 1 && IsLastFor(list[..|list| - 1], it, p)
  {
    var front := list[..|list| - 1];
    if Lists(front, it) {
      var p :| 0 <= p < |front| && front[p].item == it;
      assert list[p].item == it;
    }
    if Lists(list, it) {
      var p :| 0 <= p < |list| && list[p].item == it;
      assert front[p].item == it;
    }
  }

  /** `m` has the item with the last value that the list gives it, or not at all. */
  ghost predicate GivenLast(list: seq<Access>, m: map<Item, Value>, it: Item) {
    (it in m <==> Lists(list, it)) && forall p :: IsLastFor(list, it, p) ==> it in m && m[it] == list[p].value
  }

  lemma {:induction false} LastValuesAre(list: seq<Access>, it: Item)
    ensures GivenLast(list, LastValues(list), it)
    decreases |list|
  {
    if list == [] {
    } else if list[|list| - 1].item == it {
    } else {
      LastValuesAre(list[..|list| - 1], it);
      FrontLists(list, it);
    }
  }

  /** Transaction `i` is the last one that writes the item. */
  predicate IsLastTxFor(rws: seq<RwSet>, it: Item, i: int) {
    0 <= i < |rws| && Lists(rws[i].txWrites, it) && forall j :: i < j < |rws| ==> !Lists(rws[j].txWrites, it)
  }

  predicate Written(rws: seq<RwSet>, it: Item) {
    exists i :: 0 <= i < |rws| && Lists(rws[i].txWrites, it)
  }

  lemma FrontWritten(rws: seq<RwSet>, it: Item)
    requires rws != [] && !Lists(rws[|rws| - 1].txWrites, it)
    ensures Written(rws, it) <==> Written(rws[..|rws| - 1], it)
    ensures forall i :: IsLastTxFor(rws, it, i) ==> i < |rws| - 1 && IsLastTxFor(rws[..|rws| - 1], it, i)
  {
    var front := rws[..|rws| - 1];
    if Written(front, it) {
      var i :| 0 <= i < |front| && Lists(front[i].txWrites, it);
      assert Lists(rws[i].txWrites, it);
    }
    if Written(rws, it) {
      var i :| 0 <= i < |rws| && Lists(rws[i].txWrites, it);
      assert Lists(front[i].txWrites, it);
    }
  }

  lemma GivenByMore(list: seq<Access>, m: map<Item, Value>, m': map<Item, Value>, it: Item)
    requires GivenLast(list, m, it) && it in m && it in m' && m'[it] == m[it]
    ensures GivenLast(list, m', it)
  {
  }

  /** An item's value is the last one that the last transaction writing it gave it. */
  lemma {:induction false} ItemWritesAre(rws: seq<RwSet>, it: Item)
    ensures it in ItemWrites(rws) <==> Written(rws, it)
    ensures forall i :: IsLastTxFor(rws, it, i) ==> GivenLast(rws[i].txWrites, ItemWrites(rws), it)
    decreases |rws|
  {
    if rws == [] {
    } else {
      var n := |rws| - 1;
      LastValuesAre(rws[n].txWrites, it);
      if Lists(rws[n].txWrites, it) {
        GivenByMore(rws[n].txWrites, LastValues(rws[n].txWrites), ItemWrites(rws), it);
      } else {
        ItemWritesAre(rws[..n], it);
        FrontWritten(rws, it);
      }
    }
  }

  ghost predicate UsesOnly(items: iset<Item>, list: seq<Access>) {
    forall p :: 0 <= p < |list| ==> list[p].item in items
  }

  /** The write table answers for `it` what the transactions wrote to it. */
  predicate AnswersFor(t: Tables, it: Item) {
    var k := FinalKey(it);
    && (k in t.writeTable <==> it in ItemWrites(t.rwSetTable))
    && (k in t.writeTable ==> t.writeTable[k].value == ItemWrites(t.rwSetTable)[it])
  }

  ghost predicate ByItem(items: iset<Item>, t: Tables) {
    forall it :: it in items ==> AnswersFor(t, it)
  }

  lemma {:induction false} KeysAreItems(items: iset<Item>, list: seq<Access>, it: Item)
    requires Separated(items) && UsesOnly(items, list) && it in items
    ensures FinalKey(it) in KeyValues(list) <==> it in LastValues(list)
    ensures it in LastValues(list) ==> KeyValues(list)[FinalKey(it)] == LastValues(list)[it]
    decreases |list|
  {
    if list == [] {
    } else {
      KeysAreItems(items, list[..|list| - 1], it);
      assert list[|list| - 1].item in items;
    }
  }

  /** Applying a transaction keeps the write table right if no two items share a table key. */
  lemma ApplyByItem(items: iset<Item>, version: nat, t: Tables, tx: Bytes, rw: RwSet, result: Bytes, success: bool)
    requires Separated(items) && UsesOnly(items, rw.txWrites) && ByItem(items, t)
    ensures ByItem(items, ApplyTx(version, t, tx, rw, result, success))
  {
    var t' := ApplyTx(version, t, tx, rw, result, success);
    PutAllIsPutMap(t.writeTable, |t.txTable|, rw.txWrites);
    assert t'.rwSetTable[..|t'.rwSetTable| - 1] == t.rwSetTable;
    forall it | it in items ensures AnswersFor(t', it) {
      assert AnswersFor(t, it);
      KeysAreItems(items, rw.txWrites, it);
    }
  }

  /** The store after a block whose transactions are `rws` is committed, item by item. */
  ghost predicate ItemAbsorbs(items: iset<Item>, store: Store, rws: seq<RwSet>, store': Store) {
    forall it :: it in items ==> store'(it) == if it in ItemWrites(rws) then Ok(ItemWrites(rws)[it]) else store(it)
  }

  /** A store that has absorbed the writes item by item has absorbed the write table. */
  lemma AbsorbsByItem(items: iset<Item>, store: Store, t: Tables, store': Store)
    requires ByItem(items, t) && ItemAbsorbs(items, store, t.rwSetTable, store')
    ensures Absorbs(items, store, Values(t.writeTable), store')
  {
    forall it | it in items
      ensures store'(it) == if FinalKey(it) in t.writeTable then Ok(t.writeTable[FinalKey(it)].value) else store(it)
    {
      assert AnswersFor(t, it);
    }
  }

  // --- chains of snapshots ---

  /** A transaction: the items it reads through the snapshot, and its writes. */
  datatype Tx = Tx(id: Bytes, gets: seq<Item>, writes: seq<Access>, result: Bytes, success: bool)

  /** The next block gets a snapshot on top of the chain, or a transaction is applied to the topmost one. */
  datatype Step = NextBlock | Run(tx: Tx)

  function EmptyTables(): Tables {
    Tables(map[], map[], [], [], map[])
  }

  function ChainHeader(p: nat): Header {
    Header("", p, 0, "", "")
  }

  /** The chain as a forest: snapshot `p` is linked to snapshot `p - 1`. */
  function ChainForest(chain: seq<Tables>): (f: Forest<nat>)
    ensures Closed(f) && forall p :: p in f <==> 0 <= p < |chain|
  {
    map p: nat | 0 <= p < |chain| :: ChainLayer(chain[p], p)
  }

  function ChainLayer(t: Tables, p: nat): Layer<nat> {
    Layer(p, ChainHeader(p), ChainHeader(if p == 0 then 0 else p - 1), Values(t.readTable), Values(t.writeTable),
          if p == 0 then Cut else To(p - 1))
  }

  /** What GetKey of the topmost snapshot answers. */
  function ReadAt(chain: seq<Tables>, store: Store, it: Item): Result<Value> {
    if chain == [] then store(it) else Lookup(ChainForest(chain), |chain| - 1, store, it)
  }

  /** The reads a transaction records: what GetKey answered, where it did not fail. */
  function Recorded(chain: seq<Tables>, store: Store, gets: seq<Item>): seq<Access> {
    if gets == [] then []
    else
      var it := gets[|gets| - 1];
      Recorded(chain, store, gets[..|gets| - 1]) +
      if ReadAt(chain, store, it).Ok? then [Access(it, ReadAt(chain, store, it).value)] else []
  }

  function ApplyStep(version: nat, store: Store, chain: seq<Tables>, step: Step): seq<Tables> {
    if step.NextBlock? then chain + [EmptyTables()]
    else if chain == [] then chain
    else
      var n, tx := |chain| - 1, step.tx;
      chain[..n] + [ApplyTx(version, chain[n], tx.id, RwSet(Recorded(chain, store, tx.gets), tx.writes), tx.result, tx.success)]
  }

  /** The chain that `steps` build over the store. */
  function Built(version: nat, store: Store, steps: seq<Step>): seq<Tables> {
    if steps == [] then []
    else ApplyStep(version, store, Built(version, store, steps[..|steps| - 1]), steps[|steps| - 1])
  }

  /** What the topmost snapshot should answer: the item's last value in the nearest snapshot whose transactions wrote it,
      else the store. */
  function ItemOverlay(chain: seq<Tables>, store: Store, it: Item): Result<Value> {
    if chain == [] then store(it)
    else
      var writes := ItemWrites(chain[|chain| - 1].rwSetTable);
      if it in writes then Ok(writes[it]) else ItemOverlay(chain[..|chain| - 1], store, it)
  }

  ghost predicate StepUses(items: iset<Item>, step: Step) {
    step.Run? ==> UsesOnly(items, step.tx.writes) && forall p :: 0 <= p < |step.tx.gets| ==> step.tx.gets[p] in items
  }

  /** The transactions of `steps` use only these items. */
  ghost predicate StepsUse(items: iset<Item>, steps: seq<Step>) {
    forall p :: 0 <= p < |steps| ==> StepUses(items, steps[p])
  }

  /** The write table of snapshot `p` is right, and its read table is sound. */
  ghost predicate SnapOk(items: iset<Item>, store: Store, chain: seq<Tables>, p: nat) {
    p < |chain| ==> ByItem(items, chain[p]) && CacheSound(ChainForest(chain), items, store, p)
  }

  ghost predicate ChainOk(items: iset<Item>, store: Store, chain: seq<Tables>) {
    forall p :: SnapOk(items, store, chain, p)
  }

  lemma ChainGrows(chain: seq<Tables>, t: Tables)
    ensures Grown(ChainForest(chain), ChainForest(chain + [t]))
  {
  }

  /** The chain without its topmost snapshot answers what lies below that one. */
  lemma BelowIsFront(chain: seq<Tables>, store: Store, it: Item)
    requires chain != []
    ensures Below(ChainForest(chain), |chain| - 1, store, it) == ReadAt(chain[..|chain| - 1], store, it)
  {
    var n := |chain| - 1;
    if n > 0 {
      assert chain == chain[..n] + [chain[n]];
      ChainGrows(chain[..n], chain[n]);
      GrownLookup(ChainForest(chain[..n]), ChainForest(chain), store, n - 1, it);
    }
  }

  lemma FrontOk(items: iset<Item>, store: Store, chain: seq<Tables>)
    requires chain != [] && ChainOk(items, store, chain)
    ensures ChainOk(items, store, chain[..|chain| - 1])
  {
    var n := |chain| - 1;
    var f, g := ChainForest(chain[..n]), ChainForest(chain);
    assert chain == chain[..n] + [chain[n]];
    ChainGrows(chain[..n], chain[n]);
    forall p: nat ensures SnapOk(items, store, chain[..n], p) {
      assert SnapOk(items, store, chain, p);
      if p < n {
        SoundInFront(f, g, items, store, p);
      }
    }
  }

  lemma SoundInFront(f: Forest<nat>, g: Forest<nat>, items: iset<Item>, store: Store, p: nat)
    requires Closed(f) && Closed(g) && Grown(f, g) && p in f
    ensures CacheSound(f, items, store, p) <==> CacheSound(g, items, store, p)
  {
    forall it ensures Below(f, p, store, it) == Below(g, p, store, it) {
      if f[p].pre.To? {
        GrownLookup(f, g, store, f[p].pre.id, it);
      }
    }
  }

  /** The topmost snapshot answers what its transactions wrote to the item, else what lies below it. */
  lemma TopRead(items: iset<Item>, store: Store, chain: seq<Tables>, it: Item)
    requires chain != [] && it in items && AnswersFor(chain[|chain| - 1], it)
    requires CacheSound(ChainForest(chain), items, store, |chain| - 1)
    ensures var writes := ItemWrites(chain[|chain| - 1].rwSetTable);
            ReadAt(chain, store, it) ==
            if it in writes then Ok(writes[it]) else ReadAt(chain[..|chain| - 1], store, it)
  {
    BelowIsFront(chain, store, it);
  }

  /** In such a chain a read is right. */
  lemma {:induction false} ReadIsOverlay(items: iset<Item>, store: Store, chain: seq<Tables>, it: Item)
    requires ChainOk(items, store, chain) && it in items
    ensures ReadAt(chain, store, it) == ItemOverlay(chain, store, it)
    decreases |chain|
  {
    if chain == [] {
    } else {
      var n := |chain| - 1;
      assert SnapOk(items, store, chain, n);
      TopRead(items, store, chain, it);
      FrontOk(items, store, chain);
      ReadIsOverlay(items, store, chain[..n], it);
    }
  }

  // --- every chain ---

  lemma NextBlockOk(items: iset<Item>, store: Store, chain: seq<Tables>)
    requires ChainOk(items, store, chain)
    ensures ChainOk(items, store, chain + [EmptyTables()])
  {
    var chain' := chain + [EmptyTables()];
    var f, g := ChainForest(chain), ChainForest(chain');
    ChainGrows(chain, EmptyTables());
    forall p: nat ensures SnapOk(items, store, chain', p) {
      assert SnapOk(items, store, chain, p);
      if p < |chain| {
        SoundInFront(f, g, items, store, p);
      }
    }
  }

  lemma {:induction false} RecordedFrom(chain: seq<Tables>, store: Store, gets: seq<Item>, e: Access)
    requires e in Recorded(chain, store, gets)
    ensures e.item in gets && ReadAt(chain, store, e.item) == Ok(e.value)
    decreases |gets|
  {
    if gets == [] {
    } else {
      var front := gets[..|gets| - 1];
      if e in Recorded(chain, store, front) {
        RecordedFrom(chain, store, front, e);
      }
    }
  }

  lemma SoundLookup(f: Forest<nat>, items: iset<Item>, store: Store, n: nat, it: Item)
    requires Closed(f) && n in f && CacheSound(f, items, store, n) && it in items
    ensures FinalKey(it) !in f[n].written ==> Lookup(f, n, store, it) == Below(f, n, store, it)
  {
  }

  /** A recorded read is of a key the snapshot has written, or is what lies below it. */
  lemma RecordedFaithful(items: iset<Item>, store: Store, chain: seq<Tables>, gets: seq<Item>, written: Cells)
    requires chain != [] && CacheSound(ChainForest(chain), items, store, |chain| - 1)
    requires forall p :: 0 <= p < |gets| ==> gets[p] in items
    requires forall k :: k in chain[|chain| - 1].writeTable ==> k in written
    ensures Faithful(ChainForest(chain), |chain| - 1, items, store, Recorded(chain, store, gets), written)
  {
    var n, f := |chain| - 1, ChainForest(chain);
    assert f[n].written.Keys == chain[n].writeTable.Keys;
    forall e | e in Recorded(chain, store, gets)
      ensures e.item in items && (FinalKey(e.item) in written || Ok(e.value) == Below(f, n, store, e.item))
    {
      RecordedFrom(chain, store, gets, e);
      SoundLookup(f, items, store, n, e.item);
    }
  }

  lemma RunRetables(chain: seq<Tables>, t: Tables)
    requires chain != []
    ensures Retabled(ChainForest(chain), ChainForest(chain[..|chain| - 1] + [t]), |chain| - 1)
  {
    var n, chain' := |chain| - 1, chain[..|chain| - 1] + [t];
    var f, g := ChainForest(chain), ChainForest(chain');
    assert f.Keys == g.Keys;
    forall i | i in f && i != n ensures g[i] == f[i] {
      assert chain'[i] == chain[i];
    }
  }

  lemma RunSound(items: iset<Item>, version: nat, store: Store, chain: seq<Tables>, tx: Tx)
    requires Separated(items) && ChainOk(items, store, chain) && chain != [] && StepUses(items, Run(tx))
    ensures var chain' := ApplyStep(version, store, chain, Run(tx));
            |chain'| == |chain| && CacheSound(ChainForest(chain'), items, store, |chain| - 1)
  {
    var n, rw := |chain| - 1, RwSet(Recorded(chain, store, tx.gets), tx.writes);
    var t' := ApplyTx(version, chain[n], tx.id, rw, tx.result, tx.success);
    forall k | k in chain[n].writeTable ensures k in t'.writeTable {
      PutAllKeeps(chain[n].writeTable, |chain[n].txTable|, tx.writes, k);
    }
    assert SnapOk(items, store, chain, n);
    RecordedFaithful(items, store, chain, tx.gets, t'.writeTable);
    RunRetables(chain, t');
    var chain' := chain[..n] + [t'];
    assert chain'[n] == t';
    ApplySound(ChainForest(chain), ChainForest(chain'), n, items, store, version, chain[n], tx.id, rw, tx.result, tx.success);
  }

  lemma SoundElsewhere(f: Forest<nat>, g: Forest<nat>, items: iset<Item>, store: Store, n: nat, p: nat)
    requires Closed(f) && Closed(g) && Retabled(f, g, n) && p in f && p != n && !Reaches(f, p, n)
    requires CacheSound(f, items, store, p)
    ensures CacheSound(g, items, store, p)
  {
    forall it ensures Below(g, p, store, it) == Below(f, p, store, it) {
      RetabledBelow(f, g, n, store, p, it);
    }
  }

  lemma OlderDoesNotReach(f: Forest<nat>, p: nat, n: nat)
    requires Closed(f) && p in f && n in f && f[p].made < f[n].made
    ensures !Reaches(f, p, n)
  {
    if Reaches(f, p, n) {
      ReachedIsOlder(f, p, n);
    }
  }

  /** The snapshots below the topmost one are not touched. */
  lemma RunOkBelow(items: iset<Item>, store: Store, chain: seq<Tables>, t: Tables, p: nat)
    requires chain != [] && p < |chain| - 1 && SnapOk(items, store, chain, p)
    ensures SnapOk(items, store, chain[..|chain| - 1] + [t], p)
  {
    var n, f, g := |chain| - 1, ChainForest(chain), ChainForest(chain[..|chain| - 1] + [t]);
    RunRetables(chain, t);
    OlderDoesNotReach(f, p, n);
    SoundElsewhere(f, g, items, store, n, p);
    assert (chain[..n] + [t])[p] == chain[p];
  }

  lemma RunOkTop(items: iset<Item>, version: nat, store: Store, chain: seq<Tables>, tx: Tx)
    requires Separated(items) && ChainOk(items, store, chain) && chain != [] && StepUses(items, Run(tx))
    ensures SnapOk(items, store, ApplyStep(version, store, chain, Run(tx)), |chain| - 1)
  {
    var n := |chain| - 1;
    assert SnapOk(items, store, chain, n);
    RunSound(items, version, store, chain, tx);
    ApplyByItem(items, version, chain[n], tx.id, RwSet(Recorded(chain, store, tx.gets), tx.writes), tx.result, tx.success);
  }

  lemma RunOkAt(items: iset<Item>, version: nat, store: Store, chain: seq<Tables>, tx: Tx, p: nat)
    requires Separated(items) && ChainOk(items, store, chain) && StepUses(items, Run(tx))
    ensures SnapOk(items, store, ApplyStep(version, store, chain, Run(tx)), p)
  {
    var n := |chain| - 1;
    if p == n {
      RunOkTop(items, version, store, chain, tx);
    } else if p < n {
      var rw := RwSet(Recorded(chain, store, tx.gets), tx.writes);
      assert SnapOk(items, store, chain, p);
      RunOkBelow(items, store, chain, ApplyTx(version, chain[n], tx.id, rw, tx.result, tx.success), p);
    }
  }

  lemma RunOk(items: iset<Item>, version: nat, store: Store, chain: seq<Tables>, tx: Tx)
    requires Separated(items) && ChainOk(items, store, chain) && StepUses(items, Run(tx))
    ensures ChainOk(items, store, ApplyStep(version, store, chain, Run(tx)))
  {
    forall p: nat ensures SnapOk(items, store, ApplyStep(version, store, chain, Run(tx)), p) {
      RunOkAt(items, version, store, chain, tx, p);
    }
  }

  lemma {:induction false} BuiltOk(items: iset<Item>, version: nat, store: Store, steps: seq<Step>)
    requires Separated(items) && StepsUse(items, steps)
    ensures ChainOk(items, store, Built(version, store, steps))
    decreases |steps|
  {
    if steps == [] {
    } else {
      var front, last := steps[..|steps| - 1], steps[|steps| - 1];
      BuiltOk(items, version, store, front);
      assert StepUses(items, last);
      if last.NextBlock? {
        NextBlockOk(items, store, Built(version, store, front));
      } else {
        RunOk(items, version, store, Built(version, store, front), last.tx);
      }
    }
  }

  /** Every item is read right in the chain that `steps` build. */
  ghost predicate ReadsRight(items: iset<Item>, version: nat, store: Store, steps: seq<Step>) {
    StepsUse(items, steps) ==>
      forall it :: it in items ==>
        ReadAt(Built(version, store, steps), store, it) == ItemOverlay(Built(version, store, steps), store, it)
  }

  /** One snapshot with one transaction that reads `gets` and makes `writes`. */
  function OneTx(gets: seq<Item>, writes: seq<Access>): seq<Step> {
    [NextBlock, Run(Tx("", gets, writes, "", true))]
  }

  lemma OneTxBuilt(version: nat, store: Store, gets: seq<Item>, writes: seq<Access>)
    ensures var rw := RwSet(Recorded([EmptyTables()], store, gets), writes);
            Built(version, store, OneTx(gets, writes)) == [ApplyTx(version, EmptyTables(), "", rw, "", true)]
  {
    var steps := OneTx(gets, writes);
    assert steps[..1] == [NextBlock] && [NextBlock][..0] == [];
    assert Built(version, store, [NextBlock]) == [] + [EmptyTables()];
    assert [EmptyTables()][..0] == [];
  }

  /** A write to one of two items that share a table key is read as the other's value. */
  lemma SharedKeyMiswritten(items: iset<Item>, version: nat, a: Item, b: Item, store: Store)
    requires a in items && b in items && a != b && FinalKey(a) == FinalKey(b) && store(b) == Ok("y")
    ensures !ReadsRight(items, version, store, OneTx([], [Access(a, "x")]))
  {
    var writes := [Access(a, "x")];
    OneTxBuilt(version, store, [], writes);
    var t := ApplyTx(version, EmptyTables(), "", RwSet([], writes), "", true);
    assert writes[..0] == [];
    assert PutAll(map[], 0, writes) == map[FinalKey(a) := Cell(0, "x")];
    assert [RwSet([], writes)][..0] == [] && LastValues(writes) == map[a := "x"];
    assert ItemWrites(t.rwSetTable) == map[a := "x"];
    assert [t][..0] == [];
    assert ItemOverlay([t], store, b) == Ok("y");
    assert ReadAt([t], store, b) == Ok("x");
  }

  lemma SharedKeyFound(items: iset<Item>, version: nat) returns (store: Store, steps: seq<Step>)
    requires !Separated(items)
    ensures !ReadsRight(items, version, store, steps)
  {
    var a, b :| a in items && b in items && FinalKey(a) == FinalKey(b) && a != b;
    store, steps := (it: Item) => Ok("y"), OneTx([], [Access(a, "x")]);
    SharedKeyMiswritten(items, version, a, b, store);
  }

  lemma SeparatedReadsRight(items: iset<Item>, version: nat, store: Store, steps: seq<Step>)
    requires Separated(items)
    ensures ReadsRight(items, version, store, steps)
  {
    if StepsUse(items, steps) {
      var chain := Built(version, store, steps);
      BuiltOk(items, version, store, steps);
      forall it | it in items ensures ReadAt(chain, store, it) == ItemOverlay(chain, store, it) {
        ReadIsOverlay(items, store, chain, it);
      }
    }
  }

  /** A chain of snapshots built by any transactions answers every item's own last value if and only if no two of the items
      share a table key. */
  lemma ReadsRightIffSeparated(items: iset<Item>, version: nat)
    ensures (forall store, steps :: ReadsRight(items, version, store, steps)) <==> Separated(items)
  {
    if Separated(items) {
      forall store: Store, steps ensures ReadsRight(items, version, store, steps) {
        SeparatedReadsRight(items, version, store, steps);
      }
    } else {
      var store, steps := SharedKeyFound(items, version);
      assert !ReadsRight(items, version, store, steps);
    }
  }

  lemma OneRecorded(store: Store, a: Item)
    requires store(a).Ok?
    ensures Recorded([EmptyTables()], store, [a]) == [Access(a, store(a).value)]
  {
    assert [a][..0] == [] && [EmptyTables()][..0] == [];
    BelowIsFront([EmptyTables()], store, a);
    assert ReadAt([EmptyTables()], store, a) == store(a);
  }

  /** What one read of `a` leaves in the only snapshot of a chain. */
  lemma OneReadTables(version: nat, store: Store, a: Item)
    requires store(a).Ok?
    ensures var t := ApplyTx(version, EmptyTables(), "", RwSet([Access(a, store(a).value)], []), "", true);
            && Built(version, store, OneTx([a], [])) == [t]
            && t.readTable == map[FinalKey(a) := Cell(0, store(a).value)] && t.writeTable == map[]
            && ItemWrites(t.rwSetTable) == map[]
  {
    var rd := [Access(a, store(a).value)];
    OneRecorded(store, a);
    OneTxBuilt(version, store, [a], []);
    assert rd[..0] == [] && [RwSet(rd, [])][..0] == [];
  }

  /** A chain of one snapshot that has cached one value and written nothing answers that value for its table key. */
  lemma CachedRead(t: Tables, store: Store, k: Bytes, v: Value, it: Item)
    requires t.readTable == map[k := Cell(0, v)] && t.writeTable == map[] && FinalKey(it) == k
    requires ItemWrites(t.rwSetTable) == map[]
    ensures ReadAt([t], store, it) == Ok(v) && ItemOverlay([t], store, it) == store(it)
  {
    assert [t][..0] == [];
  }

  lemma OneReadUses(items: iset<Item>, a: Item)
    requires a in items
    ensures StepsUse(items, OneTx([a], []))
  {
  }

  /** The read table alone is enough to misread: after a read of one of two items that share a table key a read of the other
      answers the first. */
  lemma SharedKeyMisread(items: iset<Item>, version: nat, a: Item, b: Item, store: Store)
    requires a in items && b in items && FinalKey(a) == FinalKey(b) && store(a).Ok? && store(b) != store(a)
    ensures !ReadsRight(items, version, store, OneTx([a], []))
  {
    OneReadTables(version, store, a);
    var t := ApplyTx(version, EmptyTables(), "", RwSet([Access(a, store(a).value)], []), "", true);
    CachedRead(t, store, FinalKey(a), store(a).value, b);
    OneReadUses(items, a);
    assert ReadAt([t], store, b) != ItemOverlay([t], store, b);
  }

  /** Two such items. */
  lemma TwoItemsShare()
    ensures !Separated(iset{Item("a", "bc"), Item("ab", "c")})
  {
    assert FinalKey(Item("a", "bc")) == "abc" == FinalKey(Item("ab", "c"));
    assert |"a"| != |"ab"|;
  }
}
