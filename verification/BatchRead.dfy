/** GetKeys: a batch of keys through the write table, the read table, the previous snapshots and the store. */
module BatchRead {
  import opened SnapshotForest

  /** A key of the batch with its value. */
  datatype Got = Got(item: Item, value: Value)

  /** The keys of the batch that `t` has, in order, with their values. */
  function Hits(t: Table, keys: seq<Item>): seq<Got> {
    if keys == [] then []
    else
      var it := keys[|keys| - 1];
      Hits(t, keys[..|keys| - 1]) + if FinalKey(it) in t then [Got(it, t[FinalKey(it)])] else []
  }

  /** The others, in order. */
  function Misses(t: Table, keys: seq<Item>): seq<Item> {
    if keys == [] then []
    else
      var it := keys[|keys| - 1];
      Misses(t, keys[..|keys| - 1]) + if FinalKey(it) in t then [] else [it]
  }

  /** The store's batch read: every key is read from the given contract. */
  function ReadObjects(store: Store, contract: Bytes, keys: seq<Item>): Result<seq<Got>> {
    if keys == [] then Ok([])
    else
      var it := keys[|keys| - 1];
      match ReadObjects(store, contract, keys[..|keys| - 1])
      case Err => Err
      case Ok(front) =>
        match store(Item(contract, it.key))
        case Err => Err
        case Ok(v) => Ok(front + [Got(it, v)])
  }

  /** getObjects: the contract of the first key stands for all of them. */
  function GetObjects(store: Store, keys: seq<Item>): Result<seq<Got>> {
    ReadObjects(store, if keys == [] then "" else keys[0].contract, keys)
  }

  /** GetKeys of snapshot `i`. */
  function GetKeys<I>(f: Forest<I>, i: I, store: Store, keys: seq<Item>): Result<seq<Got>>
    requires Closed(f) && i in f
    decreases f[i].made, 1
  {
    var written, rest := Hits(f[i].written, keys), Misses(f[i].written, keys);
    if rest == [] then Ok(written)
    else
      var cached, rest' := Hits(f[i].cached, rest), Misses(f[i].cached, rest);
      if rest' == [] then Ok(cached + written)
      else
        match GetBelow(f, f[i].pre, store, rest')
        case Err => Err
        case Ok(got) => Ok(got + (cached + written))
  }

  /** The walk along the previous snapshots: the first one that answers without an error wins, then the store. */
  function GetBelow<I>(f: Forest<I>, link: Link<I>, store: Store, keys: seq<Item>): Result<seq<Got>>
    requires Closed(f) && (link.To? ==> link.id in f)
    decreases if link.Cut? then 0 else f[link.id].made, if link.Cut? then 0 else 2
  {
    if link.Cut? then GetObjects(store, keys)
    else
      match GetKeys(f, link.id, store, keys)
      case Ok(got) => Ok(got)
      case Err => GetBelow(f, f[link.id].pre, store, keys)
  }

  function LookupAt<I>(f: Forest<I>, link: Link<I>, store: Store, it: Item): Result<Value>
    requires Closed(f) && (link.To? ==> link.id in f)
  {
    if link.Cut? then store(it) else Lookup(f, link.id, store, it)
  }

  predicate OneContract(keys: seq<Item>) {
    forall p, q :: 0 <= p < |keys| && 0 <= q < |keys| ==> keys[p].contract == keys[q].contract
  }

  function Items(gs: seq<Got>): seq<Item> {
    seq(|gs|, p requires 0 <= p < |gs| => gs[p].item)
  }

  /** `r` is right for a batch: it fails exactly when a key cannot be read, and otherwise it holds every key of the
      batch as often as it was asked for, each with the value `want` gives. */
  ghost predicate Right<I>(f: Forest<I>, link: Link<I>, store: Store, keys: seq<Item>, r: Result<seq<Got>>)
    requires Closed(f) && (link.To? ==> link.id in f)
  {
    && (r.Err? <==> exists it :: it in keys && LookupAt(f, link, store, it).Err?)
    && (r.Ok? ==>
          && multiset(Items(r.value)) == multiset(keys)
          && forall g :: g in r.value ==> Ok(g.value) == LookupAt(f, link, store, g.item))
  }

  lemma SplitOne(t: Table, it: Item)
    ensures FinalKey(it) in t ==> Hits(t, [it]) == [Got(it, t[FinalKey(it)])] && Misses(t, [it]) == []
    ensures FinalKey(it) !in t ==> Hits(t, [it]) == [] && Misses(t, [it]) == [it]
  {
    assert [it][..0] == [];
  }

  lemma SplitLast(t: Table, front: seq<Item>, it: Item)
    ensures Hits(t, front + [it]) == Hits(t, front) + Hits(t, [it])
    ensures Misses(t, front + [it]) == Misses(t, front) + Misses(t, [it])
  {
    SplitOne(t, it);
    assert (front + [it])[..|front|] == front;
  }

  /** A batch is split part by part, in the order of its keys. */
  lemma {:induction false} SplitInOrder(t: Table, a: seq<Item>, b: seq<Item>)
    ensures Hits(t, a + b) == Hits(t, a) + Hits(t, b) && Misses(t, a + b) == Misses(t, a) + Misses(t, b)
    decreases |b|
  {
    if b == [] {
      assert a + b == a;
    } else {
      var front, it := b[..|b| - 1], b[|b| - 1];
      SplitInOrder(t, a, front);
      SplitLast(t, a + front, it);
      SplitLast(t, front, it);
      assert a + b == a + front + [it] && b == front + [it];
      Joined(Hits(t, a), Hits(t, front), Hits(t, [it]));
      Joined(Misses(t, a), Misses(t, front), Misses(t, [it]));
    }
  }

  lemma Joined<T>(x: seq<T>, y: seq<T>, z: seq<T>)
    ensures x + y + z == x + (y + z)
  {
  }

  lemma ItemsAppend(a: seq<Got>, b: seq<Got>)
    ensures Items(a + b) == Items(a) + Items(b)
  {
  }

  lemma BagAppend(s: seq<Item>, it: Item)
    ensures multiset(s + [it]) == multiset(s) + multiset{it}
  {
  }

  lemma StepHit(t: Table, front: seq<Item>, it: Item)
    requires FinalKey(it) in t
    ensures Items(Hits(t, front + [it])) == Items(Hits(t, front)) + [it]
    ensures Misses(t, front + [it]) == Misses(t, front)
  {
    assert (front + [it])[..|front|] == front;
  }

  lemma StepMiss(t: Table, front: seq<Item>, it: Item)
    requires FinalKey(it) !in t
    ensures Hits(t, front + [it]) == Hits(t, front)
    ensures Misses(t, front + [it]) == Misses(t, front) + [it]
  {
    assert (front + [it])[..|front|] == front;
  }

  lemma SplitHit(t: Table, front: seq<Item>, it: Item)
    requires FinalKey(it) in t && multiset(Items(Hits(t, front))) + multiset(Misses(t, front)) == multiset(front)
    ensures multiset(Items(Hits(t, front + [it]))) + multiset(Misses(t, front + [it])) == multiset(front + [it])
  {
    StepHit(t, front, it);
    BagAppend(front, it);
    BagAppend(Items(Hits(t, front)), it);
  }

  lemma SplitMiss(t: Table, front: seq<Item>, it: Item)
    requires FinalKey(it) !in t && multiset(Items(Hits(t, front))) + multiset(Misses(t, front)) == multiset(front)
    ensures multiset(Items(Hits(t, front + [it]))) + multiset(Misses(t, front + [it])) == multiset(front + [it])
  {
    StepMiss(t, front, it);
    BagAppend(front, it);
    BagAppend(Misses(t, front), it);
  }

  /** Hits and misses split the batch. */
  lemma {:induction false} Split(t: Table, keys: seq<Item>)
    ensures multiset(Items(Hits(t, keys))) + multiset(Misses(t, keys)) == multiset(keys)
    decreases |keys|
  {
    if keys == [] {
    } else {
      var front, it := keys[..|keys| - 1], keys[|keys| - 1];
      Split(t, front);
      assert keys == front + [it];
      if FinalKey(it) in t {
        SplitHit(t, front, it);
      } else {
        SplitMiss(t, front, it);
      }
    }
  }

  lemma {:induction false} HitsRight(t: Table, keys: seq<Item>)
    ensures forall g :: g in Hits(t, keys) ==> FinalKey(g.item) in t && g.value == t[FinalKey(g.item)]
    decreases |keys|
  {
    if keys == [] {
    } else {
      HitsRight(t, keys[..|keys| - 1]);
    }
  }

  lemma {:induction false} MissesRight(t: Table, keys: seq<Item>)
    ensures forall it :: it in Misses(t, keys) <==> it in keys && FinalKey(it) !in t
    decreases |keys|
  {
    if keys == [] {
    } else {
      var front := keys[..|keys| - 1];
      MissesRight(t, front);
      assert keys == front + [keys[|keys| - 1]];
    }
  }

  lemma {:induction false} ReadObjectsRight(store: Store, contract: Bytes, keys: seq<Item>)
    requires forall it :: it in keys ==> it.contract == contract
    ensures var r := ReadObjects(store, contract, keys);
            && (r.Err? <==> exists it :: it in keys && store(it).Err?)
            && (r.Ok? ==>
                  && multiset(Items(r.value)) == multiset(keys)
                  && forall g :: g in r.value ==> Ok(g.value) == store(g.item))
    decreases |keys|
  {
    if keys == [] {
    } else {
      var front, it := keys[..|keys| - 1], keys[|keys| - 1];
      ReadObjectsRight(store, contract, front);
      assert keys == front + [it];
      assert Item(contract, it.key) == it;
      var r := ReadObjects(store, contract, front);
      if r.Ok? && store(it).Ok? {
        BagAppend(front, it);
        BagAppend(Items(r.value), it);
        assert Items(r.value + [Got(it, store(it).value)]) == Items(r.value) + [it];
      }
    }
  }

  lemma SubBatch(t: Table, keys: seq<Item>)
    requires OneContract(keys)
    ensures OneContract(Misses(t, keys))
  {
    MissesRight(t, keys);
    var ms := Misses(t, keys);
    forall p, q | 0 <= p < |ms| && 0 <= q < |ms| ensures ms[p].contract == ms[q].contract {
      assert ms[p] in ms && ms[q] in ms;
      assert ms[p] in keys && ms[q] in keys;
    }
  }

  /** Adding what a table has to a right answer for the rest: the pairs. */
  lemma JoinPairs(t: Table, keys: seq<Item>, got: seq<Got>)
    requires multiset(Items(got)) == multiset(Misses(t, keys))
    ensures multiset(Items(got + Hits(t, keys))) == multiset(keys)
  {
    Split(t, keys);
    ItemsAppend(got, Hits(t, keys));
  }

  /** What the write table and the read table leave over. */
  function Rest<I>(f: Forest<I>, i: I, keys: seq<Item>): seq<Item>
    requires i in f
  {
    Misses(f[i].cached, Misses(f[i].written, keys))
  }

  /** A value in the answer is the one GetKey finds. */
  lemma Assemble<I>(f: Forest<I>, i: I, store: Store, keys: seq<Item>, got: seq<Got>, g: Got)
    requires Closed(f) && i in f
    requires Right(f, f[i].pre, store, Rest(f, i, keys), Ok(got))
    requires g in got || g in Hits(f[i].cached, Misses(f[i].written, keys)) || g in Hits(f[i].written, keys)
    ensures Ok(g.value) == Lookup(f, i, store, g.item)
  {
    var rest := Misses(f[i].written, keys);
    HitsRight(f[i].written, keys);
    if g !in Hits(f[i].written, keys) {
      MissesRight(f[i].written, keys);
      MissesRight(f[i].cached, rest);
      if g in Hits(f[i].cached, rest) {
        HitsRight(f[i].cached, rest);
        HitItem(f[i].cached, rest, g);
      } else {
        InItems(got, g);
      }
    }
  }

  lemma InItems(gs: seq<Got>, g: Got)
    requires g in gs
    ensures g.item in multiset(Items(gs)) && g.item in Items(gs)
  {
    var p :| 0 <= p < |gs| && gs[p] == g;
    assert Items(gs)[p] == g.item;
  }

  lemma HitItem(t: Table, keys: seq<Item>, g: Got)
    requires g in Hits(t, keys)
    ensures g.item in keys
  {
    Split(t, keys);
    InItems(Hits(t, keys), g);
    assert g.item in multiset(keys);
  }

  lemma ErrBelow<I>(f: Forest<I>, i: I, store: Store, it: Item)
    requires Closed(f) && i in f && Lookup(f, i, store, it).Err?
    ensures LookupAt(f, f[i].pre, store, it).Err?
  {
    assert Below(f, i, store, it).Err?;
  }

  /** A batch fails exactly when what its tables leave over fails. */
  lemma RestErr<I>(f: Forest<I>, i: I, store: Store, keys: seq<Item>)
    requires Closed(f) && i in f
    ensures (exists it :: it in keys && Lookup(f, i, store, it).Err?) <==>
            (exists it :: it in Rest(f, i, keys) && LookupAt(f, f[i].pre, store, it).Err?)
  {
    MissesRight(f[i].written, keys);
    MissesRight(f[i].cached, Misses(f[i].written, keys));
    forall it | it in keys && Lookup(f, i, store, it).Err?
      ensures it in Rest(f, i, keys) && LookupAt(f, f[i].pre, store, it).Err?
    {
      assert Below(f, i, store, it).Err?;
    }
    forall it | it in Rest(f, i, keys)
      ensures it in keys && Lookup(f, i, store, it) == LookupAt(f, f[i].pre, store, it)
    {
      assert Lookup(f, i, store, it) == Below(f, i, store, it);
    }
  }

  lemma Assoc(a: seq<Got>, b: seq<Got>, c: seq<Got>)
    ensures a + (b + c) == a + b + c && [] + b + c == b + c
  {
  }

  /** GetKeys of `i` from the answer for the rest. */
  lemma GetKeysShape<I>(f: Forest<I>, i: I, store: Store, keys: seq<Item>)
    requires Closed(f) && i in f
    ensures var rest := Rest(f, i, keys);
            var below := if rest == [] then Ok([]) else GetBelow(f, f[i].pre, store, rest);
            GetKeys(f, i, store, keys) ==
              if below.Err? then Err
              else Ok(below.value + Hits(f[i].cached, Misses(f[i].written, keys)) + Hits(f[i].written, keys))
  {
    var written, mid := Hits(f[i].written, keys), Misses(f[i].written, keys);
    var cached, rest := Hits(f[i].cached, mid), Rest(f, i, keys);
    if rest == [] {
      Assoc([], cached, written);
      if mid == [] {
        assert cached == [] && [] + written == written;
      }
    } else if GetBelow(f, f[i].pre, store, rest).Ok? {
      Assoc(GetBelow(f, f[i].pre, store, rest).value, cached, written);
    }
  }

  /** For keys of one contract GetKeys answers what GetKey answers key by key. */
  lemma {:induction false} GetKeysRight<I>(f: Forest<I>, i: I, store: Store, keys: seq<Item>)
    requires Closed(f) && i in f && OneContract(keys)
    ensures Right(f, To(i), store, keys, GetKeys(f, i, store, keys))
    decreases f[i].made, 1
  {
    var rest := Rest(f, i, keys);
    SubBatch(f[i].written, keys);
    SubBatch(f[i].cached, Misses(f[i].written, keys));
    if rest != [] {
      GetBelowRight(f, f[i].pre, store, rest);
    }
    RestErr(f, i, store, keys);
    GetKeysShape(f, i, store, keys);
    var below := if rest == [] then Ok([]) else GetBelow(f, f[i].pre, store, rest);
    assert Right(f, f[i].pre, store, rest, below);
    assert forall it :: LookupAt(f, To(i), store, it) == Lookup(f, i, store, it);
    if below.Ok? {
      var mid := Misses(f[i].written, keys);
      JoinPairs(f[i].cached, mid, below.value);
      JoinPairs(f[i].written, keys, below.value + Hits(f[i].cached, mid));
      forall g | g in GetKeys(f, i, store, keys).value ensures Ok(g.value) == LookupAt(f, To(i), store, g.item) {
        Assemble(f, i, store, keys, below.value, g);
      }
    }
  }

  lemma {:induction false} GetBelowRight<I>(f: Forest<I>, link: Link<I>, store: Store, keys: seq<Item>)
    requires Closed(f) && (link.To? ==> link.id in f) && OneContract(keys) && keys != []
    ensures Right(f, link, store, keys, GetBelow(f, link, store, keys))
    decreases if link.Cut? then 0 else f[link.id].made, if link.Cut? then 0 else 2
  {
    if link.Cut? {
      assert forall it :: it in keys ==> it.contract == keys[0].contract;
      ReadObjectsRight(store, keys[0].contract, keys);
    } else {
      GetKeysRight(f, link.id, store, keys);
      if GetKeys(f, link.id, store, keys).Err? {
        GetBelowRight(f, f[link.id].pre, store, keys);
        var it :| it in keys && Lookup(f, link.id, store, it).Err?;
        ErrBelow(f, link.id, store, it);
      }
    }
  }

  /** The batch answer is right in this chain over this store. */
  ghost predicate RightHere(f: Forest<nat>, i: nat, store: Store, keys: seq<Item>) {
    Closed(f) && i in f ==> Right(f, To(i), store, keys, GetKeys(f, i, store, keys))
  }

  lemma {:induction false} AllMissed(keys: seq<Item>)
    ensures Hits(map[], keys) == [] && Misses(map[], keys) == keys
    decreases |keys|
  {
    if keys == [] {
    } else {
      AllMissed(keys[..|keys| - 1]);
    }
  }

  /** One snapshot with empty tables. */
  function Bare(): (f: Forest<nat>)
    ensures Closed(f) && 0 in f
  {
    var h := Header("", 0, 0, "", "");
    map[0 := Layer(0, h, h, map[], map[], Cut)]
  }

  /** A store that answers the name of the contract. */
  function Names(it: Item): Result<Value> {
    Ok(it.contract)
  }

  lemma {:induction false} NamesRead(contract: Bytes, keys: seq<Item>)
    ensures var r := ReadObjects(Names, contract, keys);
            r.Ok? && |r.value| == |keys| && forall p :: 0 <= p < |keys| ==> r.value[p] == Got(keys[p], contract)
    decreases |keys|
  {
    if keys == [] {
    } else {
      NamesRead(contract, keys[..|keys| - 1]);
    }
  }

  lemma BareRead(store: Store, keys: seq<Item>)
    requires keys != []
    ensures GetKeys(Bare(), 0, store, keys) == ReadObjects(store, keys[0].contract, keys)
  {
    AllMissed(keys);
    GetKeysShape(Bare(), 0, store, keys);
    var r := GetObjects(store, keys);
    if r.Ok? {
      assert r.value + [] + [] == r.value;
    }
  }

  lemma BareLookup(store: Store, it: Item)
    ensures Lookup(Bare(), 0, store, it) == store(it)
  {
  }

  lemma Misnamed(keys: seq<Item>, r: Result<seq<Got>>, g: Got, q: nat)
    requires r.Ok? && q < |r.value| && r.value[q] == g && g.value != g.item.contract
    ensures !Right(Bare(), To(0), Names, keys, r)
  {
    BareLookup(Names, g.item);
    assert g in r.value;
  }

  /** A batch with keys of two contracts is misread in an empty snapshot over some store. */
  lemma MixedBatchMisread(keys: seq<Item>)
    requires !OneContract(keys)
    ensures !RightHere(Bare(), 0, Names, keys)
  {
    var q :| 0 <= q < |keys| && keys[q].contract != keys[0].contract;
    BareRead(Names, keys);
    NamesRead(keys[0].contract, keys);
    Misnamed(keys, GetKeys(Bare(), 0, Names, keys), Got(keys[q], keys[0].contract), q);
  }

  /** Batch reads agree with single reads in every chain over every store if and only if the keys are of one contract. */
  lemma BatchIffOneContract(keys: seq<Item>)
    ensures (forall f, i, store :: RightHere(f, i, store, keys)) <==> OneContract(keys)
  {
    if OneContract(keys) {
      forall f: Forest<nat>, i, store: Store ensures RightHere(f, i, store, keys) {
        if Closed(f) && i in f {
          GetKeysRight(f, i, store, keys);
        }
      }
    } else {
      MixedBatchMisread(keys);
    }
  }
}
