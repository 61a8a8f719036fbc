/** Snapshots linked to the snapshots of their previous blocks, over the store: what a read answers, and what a
    commit changes.  A forest maps every snapshot ever made to its layer. */
module SnapshotForest {
  type Bytes = string

  datatype Result<+T> = Ok(value: T) | Err

  /** A key of a contract. */
  datatype Item = Item(contract: Bytes, key: Bytes)

  /** constructKey: no separator between the two parts. */
  function FinalKey(it: Item): Bytes {
    it.contract + it.key
  }

  /** No two of the items share a table key. */
  ghost predicate Separated(items: iset<Item>) {
    forall a, b :: a in items && b in items && FinalKey(a) == FinalKey(b) ==> a == b
  }

  type Value = Bytes
  type Store = Item -> Result<Value>
  type Table = map<Bytes, Value>

  /** The fields of a block header that its fingerprint is made of. */
  datatype Header = Header(chainId: Bytes, height: nat, timestamp: int, proposer: Bytes, preHash: Bytes)

  /** One snapshot: its number in the order they were made, the block it is for, the block before that one, its two
      tables and its link. */
  datatype Layer<I> = Layer(made: nat, header: Header, parent: Header, cached: Table, written: Table, pre: Link<I>)

  datatype Link<I> = Cut | To(id: I)

  type Forest<!I> = map<I, Layer<I>>

  /** Links lead to snapshots made before. */
  predicate Closed<I>(f: Forest<I>) {
    forall i :: i in f && f[i].pre.To? ==> f[i].pre.id in f && f[f[i].pre.id].made < f[i].made
  }

  /** What GetKey answers: write table, read table, previous snapshots, store. */
  function Lookup<I>(f: Forest<I>, i: I, store: Store, it: Item): Result<Value>
    requires Closed(f) && i in f
    decreases f[i].made
  {
    var k := FinalKey(it);
    if k in f[i].written then Ok(f[i].written[k])
    else if k in f[i].cached then Ok(f[i].cached[k])
    else Below(f, i, store, it)
  }

  /** The same without `i`'s own tables. */
  function Below<I>(f: Forest<I>, i: I, store: Store, it: Item): Result<Value>
    requires Closed(f) && i in f
    decreases f[i].made, 0
  {
    if f[i].pre.Cut? then store(it) else Lookup(f, f[i].pre.id, store, it)
  }

  /** The plain overlay: the nearest snapshot that wrote the key, or the store. */
  function Overlay<I>(f: Forest<I>, i: I, store: Store, it: Item): Result<Value>
    requires Closed(f) && i in f
    decreases f[i].made
  {
    var k := FinalKey(it);
    if k in f[i].written then Ok(f[i].written[k])
    else if f[i].pre.Cut? then store(it)
    else Overlay(f, f[i].pre.id, store, it)
  }

  /** The cached reads of `i` for keys it did not write are what lies below it. */
  ghost predicate CacheSound<I>(f: Forest<I>, items: iset<Item>, store: Store, i: I)
    requires Closed(f) && i in f
  {
    forall it :: it in items && FinalKey(it) in f[i].cached && FinalKey(it) !in f[i].written ==>
      Ok(f[i].cached[FinalKey(it)]) == Below(f, i, store, it)
  }

  /** The snapshots below `i`, itself included, have sound caches. */
  ghost predicate ChainSound<I>(f: Forest<I>, items: iset<Item>, store: Store, i: I)
    requires Closed(f) && i in f
    decreases f[i].made
  {
    CacheSound(f, items, store, i) && (f[i].pre.To? ==> ChainSound(f, items, store, f[i].pre.id))
  }

  /** With sound caches the read table is invisible. */
  lemma {:induction false} CacheTransparent<I>(f: Forest<I>, items: iset<Item>, store: Store, i: I, it: Item)
    requires Closed(f) && i in f && ChainSound(f, items, store, i) && it in items
    ensures Lookup(f, i, store, it) == Overlay(f, i, store, it)
    decreases f[i].made
  {
    if f[i].pre.Cut? {
    } else {
      CacheTransparent(f, items, store, f[i].pre.id, it);
    }
  }

  /** `g` is `f` with some links cut. */
  predicate Trimmed<I>(f: Forest<I>, g: Forest<I>) {
    && f.Keys == g.Keys
    && forall i :: i in f ==> g[i] == f[i] || g[i] == f[i].(pre := Cut)
  }

  lemma TrimmedClosed<I>(f: Forest<I>, g: Forest<I>)
    requires Closed(f) && Trimmed(f, g)
    ensures Closed(g)
  {
  }

  /** After a trim a read answers what it did, or falls through to the store. */
  lemma {:induction false} TrimmedLookup<I>(f: Forest<I>, g: Forest<I>, i: I, store: Store, store': Store, it: Item)
    requires Closed(f) && Trimmed(f, g) && Closed(g) && i in f
    ensures Lookup(g, i, store', it) == Lookup(f, i, store, it) || Lookup(g, i, store', it) == store'(it)
    decreases f[i].made
  {
    if f[i].pre.Cut? {
    } else {
      TrimmedLookup(f, g, f[i].pre.id, store, store', it);
    }
  }

  /** The links lead from `i` to `b`. */
  predicate Reaches<I(==)>(f: Forest<I>, i: I, b: I)
    requires Closed(f) && i in f
    decreases f[i].made
  {
    i == b || (f[i].pre.To? && Reaches(f, f[i].pre.id, b))
  }

  /** What is reached was made before. */
  lemma {:induction false} ReachedIsOlder<I>(f: Forest<I>, i: I, b: I)
    requires Closed(f) && i in f && Reaches(f, i, b)
    ensures b in f && (i != b ==> f[b].made < f[i].made)
    decreases f[i].made
  {
    if i == b {
    } else {
      ReachedIsOlder(f, f[i].pre.id, b);
    }
  }

  /** The links lead from `i` to `b`, and every one of them to a lower block. */
  predicate Rises<I(==)>(f: Forest<I>, i: I, b: I)
    requires Closed(f) && i in f
    decreases f[i].made
  {
    || i == b
    || (f[i].pre.To? && f[f[i].pre.id].header.height < f[i].header.height && Rises(f, f[i].pre.id, b))
  }

  /** Then `b` is of a lower block. */
  lemma {:induction false} RisesFromLower<I>(f: Forest<I>, i: I, b: I)
    requires Closed(f) && i in f && Rises(f, i, b)
    ensures b in f && Reaches(f, i, b) && (i != b ==> f[b].header.height < f[i].header.height)
    decreases f[i].made
  {
    if i == b {
    } else {
      RisesFromLower(f, f[i].pre.id, b);
    }
  }

  /** The store after a block with the write table `written` is committed. */
  ghost predicate Absorbs(items: iset<Item>, store: Store, written: Table, store': Store) {
    forall it :: it in items ==> store'(it) == if FinalKey(it) in written then Ok(written[FinalKey(it)]) else store(it)
  }

  /** In-order commit: a snapshot that reads the store below itself leaves its block absorbed. */
  lemma InOrderAbsorbs<I>(f: Forest<I>, items: iset<Item>, store: Store, store': Store, b: I, it: Item)
    requires Closed(f) && b in f && it in items && CacheSound(f, items, store, b)
    requires Below(f, b, store, it) == store(it)
    requires Absorbs(items, store, f[b].written, store')
    ensures Lookup(f, b, store, it) == store'(it)
  {
  }

  /** `g` is `f` with other tables for snapshot `s` alone. */
  predicate Retabled<I>(f: Forest<I>, g: Forest<I>, s: I) {
    && f.Keys == g.Keys && s in f
    && g[s] == f[s].(cached := g[s].cached, written := g[s].written)
    && forall i :: i in f && i != s ==> g[i] == f[i]
  }

  lemma RetabledClosed<I>(f: Forest<I>, g: Forest<I>, s: I)
    requires Closed(f) && Retabled(f, g, s)
    ensures Closed(g)
  {
    assert forall i :: i in f ==> g[i].header == f[i].header && g[i].pre == f[i].pre;
  }

  /** New tables of `s` change only what `s` and the snapshots above it read. */
  lemma {:induction false} RetabledLookup<I>(f: Forest<I>, g: Forest<I>, s: I, store: Store, i: I, it: Item)
    requires Closed(f) && Closed(g) && Retabled(f, g, s) && i in f && !Reaches(f, i, s)
    ensures Lookup(g, i, store, it) == Lookup(f, i, store, it)
    decreases f[i].made
  {
    if f[i].pre.Cut? {
    } else {
      RetabledLookup(f, g, s, store, f[i].pre.id, it);
    }
  }

  /** What lies below a snapshot that is not strictly above `s` stays. */
  lemma RetabledBelow<I>(f: Forest<I>, g: Forest<I>, s: I, store: Store, i: I, it: Item)
    requires Closed(f) && Closed(g) && Retabled(f, g, s) && i in f
    requires f[i].pre.To? ==> !Reaches(f, f[i].pre.id, s)
    ensures Below(g, i, store, it) == Below(f, i, store, it)
  {
    if f[i].pre.To? {
      RetabledLookup(f, g, s, store, f[i].pre.id, it);
    }
  }

  /** `g` is `f` with more snapshots. */
  predicate Grown<I>(f: Forest<I>, g: Forest<I>) {
    f.Keys <= g.Keys && forall i :: i in f ==> g[i] == f[i]
  }

  lemma {:induction false} GrownLookup<I>(f: Forest<I>, g: Forest<I>, store: Store, i: I, it: Item)
    requires Closed(f) && Closed(g) && Grown(f, g) && i in f
    ensures Lookup(g, i, store, it) == Lookup(f, i, store, it)
    decreases f[i].made
  {
    if f[i].pre.Cut? {
    } else {
      GrownLookup(f, g, store, f[i].pre.id, it);
    }
  }
}
