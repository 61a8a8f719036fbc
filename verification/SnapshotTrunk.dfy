/** The snapshots that hang on the last committed block: what every manager operation keeps true of them. */
module SnapshotTrunk {
  import opened SnapshotForest

  /** A snapshot more than this many blocks below the committed one is dropped. */
  const KEPT_BLOCKS := 8

  predicate Stale(block: Header, h: Header) {
    block.height - h.height > KEPT_BLOCKS
  }

  /** The snapshots held after `block` is committed. */
  function Remaining<I>(held: map<Header, I>, block: Header): map<Header, I> {
    map h | h in held && h != block && !Stale(block, h) :: held[h]
  }

  /** A forest, the snapshots the manager holds, the last committed block and the store; `trunk` has the held snapshots
      whose chain starts at that block, and `base` what lay below each of them when it was made. */
  datatype World<!I> = World(f: Forest<I>, held: map<Header, I>, trunk: set<I>, base: map<I, Store>, tip: Header, store: Store)

  predicate Numbered<I>(f: Forest<I>) {
    forall i :: i in f ==> f[i].made < |f|
  }

  /** Snapshots are numbered as they are made, links lead to earlier ones, and the held ones are found under their
      headers. */
  predicate Shape<I>(w: World<I>) {
    && Closed(w.f) && Numbered(w.f)
    && forall h :: h in w.held ==> w.held[h] in w.f && w.f[w.held[h]].header == h
  }

  /** `s` is held, its block is above the tip, and it is linked to the snapshot of its previous block or that is the tip. */
  predicate OnTrunk<I(==)>(w: World<I>, s: I) {
    && s in w.f && s in w.base
    && w.f[s].header in w.held && w.held[w.f[s].header] == s
    && w.tip.height < w.f[s].header.height && w.f[s].parent.height < w.f[s].header.height
    && match w.f[s].pre
       case Cut => w.f[s].parent == w.tip
       case To(p) => p in w.trunk && p in w.f && w.f[p].header == w.f[s].parent
  }

  /** The read table of `s` is sound, and what lies below `s` is `was`. */
  ghost predicate Steady<I>(f: Forest<I>, items: iset<Item>, store: Store, s: I, was: Store)
    requires Closed(f) && s in f
  {
    CacheSound(f, items, store, s) && forall it :: it in items ==> Below(f, s, store, it) == was(it)
  }

  ghost predicate Valid<I>(w: World<I>, items: iset<Item>) {
    && Shape(w)
    && (forall s :: s in w.trunk ==> OnTrunk(w, s))
    && (forall s :: s in w.trunk ==> Steady(w.f, items, w.store, s, w.base[s]))
  }

  /** What lies below `s`, as a store. */
  function BelowOf<I(==)>(f: Forest<I>, s: I, store: Store): Store
    requires Closed(f) && s in f
  {
    (it: Item) => Below(f, s, store, it)
  }

  /** The snapshots of the trunk from which no link leads to `o`. */
  function NotAbove<I(==)>(w: World<I>, o: I): set<I>
    requires Shape(w) && w.trunk <= w.f.Keys
  {
    set s | s in w.trunk && !Reaches(w.f, s, o)
  }

  /** The snapshots of the trunk strictly above `b`. */
  function Above<I(==)>(w: World<I>, b: I): set<I>
    requires Shape(w) && w.trunk <= w.f.Keys
  {
    set s | s in w.trunk && s != b && Reaches(w.f, s, b)
  }

  lemma TrunkInForest<I>(w: World<I>, items: iset<Item>)
    requires Valid(w, items)
    ensures w.trunk <= w.f.Keys
  {
  }

  /** A trunk snapshot answers its own writes over the state it started from, whatever was committed since. */
  lemma TrunkReads<I>(w: World<I>, items: iset<Item>, s: I, it: Item)
    requires Valid(w, items) && s in w.trunk && it in items
    ensures s in w.f && s in w.base
    ensures Lookup(w.f, s, w.store, it) ==
            if FinalKey(it) in w.f[s].written then Ok(w.f[s].written[FinalKey(it)]) else w.base[s](it)
  {
    assert OnTrunk(w, s);
  }

  /** The read tables of a trunk snapshot and of everything below it are sound. */
  lemma {:induction false} TrunkChainSound<I>(w: World<I>, items: iset<Item>, s: I)
    requires Valid(w, items) && s in w.trunk && s in w.f
    ensures ChainSound(w.f, items, w.store, s)
    decreases w.f[s].made
  {
    assert OnTrunk(w, s);
    if w.f[s].pre.Cut? {
    } else {
      TrunkChainSound(w, items, w.f[s].pre.id);
    }
  }

  /** In every world the manager reaches, a trunk snapshot reads the plain overlay of the write tables over the store. */
  lemma TrunkOverlay<I>(w: World<I>, items: iset<Item>, s: I, it: Item)
    requires Valid(w, items) && s in w.trunk && s in w.f && it in items
    ensures Lookup(w.f, s, w.store, it) == Overlay(w.f, s, w.store, it)
  {
    TrunkChainSound(w, items, s);
    CacheTransparent(w.f, items, w.store, s, it);
  }

  // --- a snapshot leaves the manager ---

  /** The held snapshot `o` is dropped or replaced: it and what is above it leave the trunk. */
  function Dropped<I(==)>(w: World<I>, o: I): World<I>
    requires Shape(w) && w.trunk <= w.f.Keys && o in w.f
  {
    w.(held := w.held - {w.f[o].header}, trunk := NotAbove(w, o))
  }

  lemma DropKeeps<I>(w: World<I>, items: iset<Item>, o: I)
    requires Valid(w, items) && w.f.Keys >= w.trunk && o in w.f && w.f[o].header in w.held && w.held[w.f[o].header] == o
    ensures Valid(Dropped(w, o), items)
  {
    var w' := Dropped(w, o);
    forall s | s in w'.trunk ensures OnTrunk(w', s) {
      assert OnTrunk(w, s);
    }
  }

  // --- a snapshot is made ---

  /** The world with the new snapshot `s`, whose header is not held.  It joins the trunk if its block is above its previous
      block and that one is on the trunk or is the tip. */
  function Made<I(==)>(w: World<I>, s: I, layer: Layer<I>): World<I>
    requires Shape(w)
  {
    var f := w.f[s := layer];
    var w1 := w.(f := f, held := w.held[layer.header := s]);
    if Closed(f) && layer.parent.height < layer.header.height &&
       if layer.pre.To? then layer.pre.id in w.trunk else layer.parent == w.tip then
      w1.(trunk := w.trunk + {s}, base := w.base[s := BelowOf(f, s, w.store)])
    else w1
  }

  lemma GrownSteady<I>(f: Forest<I>, g: Forest<I>, items: iset<Item>, store: Store, s: I, was: Store)
    requires Closed(f) && Closed(g) && Grown(f, g) && s in f && Steady(f, items, store, s, was)
    ensures Steady(g, items, store, s, was)
  {
    forall it ensures Below(g, s, store, it) == Below(f, s, store, it) {
      if f[s].pre.To? {
        GrownLookup(f, g, store, f[s].pre.id, it);
      }
    }
  }

  /** A new snapshot with empty tables, linked to a held snapshot of its previous block or to none. */
  predicate Fresh<I(==)>(w: World<I>, s: I, layer: Layer<I>) {
    && s !in w.f && layer.header !in w.held
    && layer.cached == map[] && layer.written == map[] && layer.made == |w.f|
    && (layer.pre.To? ==> layer.parent in w.held && w.held[layer.parent] == layer.pre.id)
  }

  lemma MadeClosed<I>(f: Forest<I>, s: I, layer: Layer<I>)
    requires Closed(f) && s !in f
    requires layer.pre.To? ==> layer.pre.id in f && f[layer.pre.id].made < layer.made
    ensures Closed(f[s := layer]) && Grown(f, f[s := layer])
  {
    var g := f[s := layer];
    forall i | i in g && g[i].pre.To?
      ensures g[i].pre.id in g && g[g[i].pre.id].made < g[i].made
    {
      if i != s {
        assert f[i].pre.id in f;
      }
    }
  }

  lemma MadeNumbered<I>(f: Forest<I>, s: I, layer: Layer<I>)
    requires Numbered(f) && s !in f && layer.made == |f|
    ensures Numbered(f[s := layer])
  {
    assert f[s := layer].Keys == f.Keys + {s};
  }

  lemma MadeShape<I>(w: World<I>, s: I, layer: Layer<I>)
    requires Shape(w) && Fresh(w, s, layer)
    ensures Shape(Made(w, s, layer)) && Grown(w.f, Made(w, s, layer).f)
  {
    MadeClosed(w.f, s, layer);
    MadeNumbered(w.f, s, layer);
    var w' := Made(w, s, layer);
    assert w'.f == w.f[s := layer] && w'.held == w.held[layer.header := s];
    forall h | h in w'.held ensures w'.held[h] in w'.f && w'.f[w'.held[h]].header == h {
      assert h != layer.header ==> w.held[h] in w.f;
    }
  }

  lemma MakeKeeps<I>(w: World<I>, items: iset<Item>, s: I, layer: Layer<I>)
    requires Valid(w, items) && Fresh(w, s, layer)
    ensures Valid(Made(w, s, layer), items)
  {
    var w' := Made(w, s, layer);
    MadeShape(w, s, layer);
    forall x | x in w'.trunk ensures OnTrunk(w', x) {
      if x != s {
        assert OnTrunk(w, x);
      } else if layer.pre.To? {
        assert OnTrunk(w, layer.pre.id);
      }
    }
    forall x | x in w'.trunk ensures Steady(w'.f, items, w'.store, x, w'.base[x]) {
      if x != s {
        assert OnTrunk(w, x);
        GrownSteady(w.f, w'.f, items, w.store, x, w.base[x]);
      }
    }
  }

  // --- a block is committed ---

  /** The manager unlinks held snapshot `i`: it is linked to a snapshot of the block, or it is too old. */
  predicate Cuts<I(==)>(w: World<I>, block: Header, i: I)
    requires Shape(w) && i in w.f
  {
    && w.f[i].header in w.held && w.held[w.f[i].header] == i
    && (|| (w.f[i].pre.To? && w.f[w.f[i].pre.id].header == block)
        || (w.f[i].header != block && Stale(block, w.f[i].header)))
  }

  function Unlinked<I>(w: World<I>, block: Header): Forest<I>
    requires Shape(w)
  {
    map i | i in w.f :: if Cuts(w, block, i) then w.f[i].(pre := Cut) else w.f[i]
  }

  /** The block has a snapshot on the trunk right above the tip, and the new store has absorbed its writes. */
  ghost predicate InOrder<I>(w: World<I>, items: iset<Item>, block: Header, store': Store)
    requires Shape(w)
  {
    && block in w.held && w.held[block] in w.trunk && w.f[w.held[block]].parent == w.tip
    && Absorbs(items, w.store, w.f[w.held[block]].written, store')
  }

  ghost function Committed<I>(w: World<I>, items: iset<Item>, block: Header, store': Store): World<I>
    requires Shape(w) && w.trunk <= w.f.Keys
  {
    World(Unlinked(w, block), Remaining(w.held, block),
          if InOrder(w, items, block, store') then Above(w, w.held[block]) else {}, w.base, block, store')
  }

  lemma UnlinkedTrims<I>(w: World<I>, block: Header)
    requires Shape(w)
    ensures Trimmed(w.f, Unlinked(w, block)) && Closed(Unlinked(w, block))
  {
    TrimmedClosed(w.f, Unlinked(w, block));
  }

  /** Of the snapshots that rise from `b` only the ones linked to `b` are unlinked, and every held one stays held. */
  lemma AboveStays<I>(w: World<I>, b: I, i: I)
    requires Shape(w) && i in w.f && i != b && Rises(w.f, i, b)
    ensures b in w.f
    ensures var block := w.f[b].header;
            && (w.f[i].header in w.held && w.held[w.f[i].header] == i ==>
                  w.f[i].header in Remaining(w.held, block) && Remaining(w.held, block)[w.f[i].header] == i)
            && (Cuts(w, block, i) ==> w.f[i].pre == To(b))
            && block.height < w.f[i].header.height
  {
    RisesFromLower(w.f, i, b);
    RisesFromLower(w.f, w.f[i].pre.id, b);
  }

  /** From `i` down to `b` a commit of `block` unlinks nothing, or only what is linked to `b` itself. */
  predicate Unbroken<I(==)>(w: World<I>, block: Header, i: I, b: I)
    requires Shape(w) && i in w.f
    decreases w.f[i].made
  {
    || i == b
    || (w.f[i].pre.To? && (Cuts(w, block, i) ==> w.f[i].pre.id == b) && Unbroken(w, block, w.f[i].pre.id, b))
  }

  lemma {:induction false} RisesUnbroken<I>(w: World<I>, i: I, b: I)
    requires Shape(w) && i in w.f && b in w.f && Rises(w.f, i, b)
    ensures Unbroken(w, w.f[b].header, i, b)
    decreases w.f[i].made
  {
    if i == b {
    } else {
      AboveStays(w, b, i);
      RisesUnbroken(w, w.f[i].pre.id, b);
    }
  }

  /** A commit after which the store answers what `b` answered changes no value read through unbroken links to `b`. */
  lemma {:induction false} CommitTransparent<I>(w: World<I>, block: Header, store': Store, i: I, b: I, it: Item)
    requires Shape(w) && i in w.f && b in w.f && Unbroken(w, block, i, b) && Lookup(w.f, b, w.store, it) == store'(it)
    ensures Closed(Unlinked(w, block)) && Lookup(Unlinked(w, block), i, store', it) == Lookup(w.f, i, w.store, it)
    decreases w.f[i].made
  {
    UnlinkedTrims(w, block);
    if i == b {
      TrimmedLookup(w.f, Unlinked(w, block), i, w.store, store', it);
    } else {
      CommitTransparent(w, block, store', w.f[i].pre.id, b, it);
    }
  }

  /** The same for what lies below a snapshot strictly above `b`. */
  lemma CommitBelow<I>(w: World<I>, block: Header, store': Store, i: I, b: I, it: Item)
    requires Shape(w) && i in w.f && b in w.f && i != b && Unbroken(w, block, i, b)
    requires Lookup(w.f, b, w.store, it) == store'(it)
    ensures Closed(Unlinked(w, block)) && Below(Unlinked(w, block), i, store', it) == Below(w.f, i, w.store, it)
  {
    CommitTransparent(w, block, store', w.f[i].pre.id, b, it);
  }

  /** A trunk snapshot right above the tip reads the store below itself, so its block is absorbed. */
  lemma TipAbsorbed<I>(w: World<I>, items: iset<Item>, block: Header, store': Store, it: Item)
    requires Valid(w, items) && InOrder(w, items, block, store') && it in items
    ensures w.held[block] in w.f && w.f[w.held[block]].header == block
    ensures Lookup(w.f, w.held[block], w.store, it) == store'(it)
  {
    var b := w.held[block];
    assert OnTrunk(w, b);
    assert w.f[b].pre.To? ==> OnTrunk(w, w.f[b].pre.id);
    InOrderAbsorbs(w.f, items, w.store, store', b, it);
  }

  /** An in-order commit changes no value that is read through unbroken links to the snapshot of the block. */
  lemma CommitReads<I>(w: World<I>, items: iset<Item>, block: Header, store': Store, i: I, it: Item)
    requires Valid(w, items) && InOrder(w, items, block, store') && it in items
    requires i in w.f && Unbroken(w, block, i, w.held[block])
    ensures Closed(Unlinked(w, block))
    ensures Lookup(Unlinked(w, block), i, store', it) == Lookup(w.f, i, w.store, it)
  {
    TipAbsorbed(w, items, block, store', it);
    CommitTransparent(w, block, store', i, w.held[block], it);
  }

  /** Every snapshot with unbroken links to that of the block reads in `w'` what it read in `w`. */
  ghost predicate ReadsKept<I>(w: World<I>, w': World<I>, items: iset<Item>, block: Header)
    requires Shape(w) && Shape(w') && w.f.Keys == w'.f.Keys && block in w.held
  {
    forall i, it :: i in w.f && it in items && Unbroken(w, block, i, w.held[block]) ==>
      Lookup(w'.f, i, w'.store, it) == Lookup(w.f, i, w.store, it)
  }

  lemma TrimmedNumbered<I>(f: Forest<I>, g: Forest<I>)
    requires Numbered(f) && Trimmed(f, g)
    ensures Numbered(g)
  {
    assert |g.Keys| == |f.Keys|;
  }

  lemma CommitShape<I>(w: World<I>, items: iset<Item>, block: Header, store': Store)
    requires Shape(w) && w.trunk <= w.f.Keys
    ensures Shape(Committed(w, items, block, store'))
  {
    var w' := Committed(w, items, block, store');
    UnlinkedTrims(w, block);
    TrimmedNumbered(w.f, w'.f);
    forall h | h in w'.held ensures w'.held[h] in w'.f && w'.f[w'.held[h]].header == h {
      assert w'.held[h] == w.held[h];
    }
  }

  lemma CommitReadsAll<I>(w: World<I>, items: iset<Item>, block: Header, store': Store)
    requires Valid(w, items) && w.trunk <= w.f.Keys
    ensures Shape(Committed(w, items, block, store'))
    ensures InOrder(w, items, block, store') ==> ReadsKept(w, Committed(w, items, block, store'), items, block)
  {
    CommitShape(w, items, block, store');
    if InOrder(w, items, block, store') {
      forall i, it | i in w.f && it in items && Unbroken(w, block, i, w.held[block])
        ensures Lookup(Unlinked(w, block), i, store', it) == Lookup(w.f, i, w.store, it)
      {
        CommitReads(w, items, block, store', i, it);
      }
    }
  }

  lemma CommitSteady<I>(w: World<I>, items: iset<Item>, block: Header, store': Store, s: I)
    requires Valid(w, items) && InOrder(w, items, block, store')
    requires s in w.trunk && s in w.f && s in w.base && s != w.held[block] && Rises(w.f, s, w.held[block])
    ensures Closed(Unlinked(w, block)) && Steady(Unlinked(w, block), items, store', s, w.base[s])
  {
    var g := Unlinked(w, block);
    UnlinkedTrims(w, block);
    RisesUnbroken(w, s, w.held[block]);
    forall it | it in items ensures Below(g, s, store', it) == Below(w.f, s, w.store, it) {
      TipAbsorbed(w, items, block, store', it);
      CommitBelow(w, block, store', s, w.held[block], it);
    }
    assert g[s].cached == w.f[s].cached && g[s].written == w.f[s].written;
  }

  /** On the trunk every link is to a lower block. */
  lemma {:induction false} TrunkRises<I>(w: World<I>, items: iset<Item>, s: I, b: I)
    requires Valid(w, items) && s in w.trunk && s in w.f && Reaches(w.f, s, b)
    ensures Rises(w.f, s, b)
    decreases w.f[s].made
  {
    if s == b {
    } else {
      assert OnTrunk(w, s);
      TrunkRises(w, items, w.f[s].pre.id, b);
    }
  }

  lemma CommitOnTrunk<I>(w: World<I>, items: iset<Item>, block: Header, store': Store, s: I)
    requires Valid(w, items) && w.trunk <= w.f.Keys && InOrder(w, items, block, store')
    requires s in Above(w, w.held[block])
    ensures OnTrunk(Committed(w, items, block, store'), s)
  {
    var b := w.held[block];
    assert OnTrunk(w, s) && w.f[b].header == block;
    TrunkRises(w, items, s, b);
    AboveStays(w, b, s);
  }

  lemma CommitKeepsOne<I>(w: World<I>, items: iset<Item>, block: Header, store': Store, s: I)
    requires Valid(w, items) && w.trunk <= w.f.Keys && InOrder(w, items, block, store') && s in Above(w, w.held[block])
    ensures OnTrunk(Committed(w, items, block, store'), s)
    ensures Closed(Unlinked(w, block)) && s in w.base && Steady(Unlinked(w, block), items, store', s, w.base[s])
  {
    assert OnTrunk(w, s);
    CommitOnTrunk(w, items, block, store', s);
    TrunkRises(w, items, s, w.held[block]);
    CommitSteady(w, items, block, store', s);
  }

  /** Over every commit, in order or not, the invariant stays. */
  lemma CommitKeeps<I>(w: World<I>, items: iset<Item>, block: Header, store': Store)
    requires Valid(w, items) && w.trunk <= w.f.Keys
    ensures Valid(Committed(w, items, block, store'), items)
  {
    var w' := Committed(w, items, block, store');
    CommitShape(w, items, block, store');
    if InOrder(w, items, block, store') {
      forall s | s in w'.trunk ensures OnTrunk(w', s) && Steady(w'.f, items, w'.store, s, w'.base[s]) {
        CommitKeepsOne(w, items, block, store', s);
      }
    }
  }

  /** The next block: after a commit a new snapshot of a higher block on top of the committed one joins the trunk, linked to
      nothing, and what lies below it is the new store. */
  lemma NextJoins<I>(w: World<I>, items: iset<Item>, block: Header, store': Store, s: I, layer: Layer<I>)
    requires Valid(w, items) && w.trunk <= w.f.Keys && Valid(Committed(w, items, block, store'), items)
    requires Fresh(Committed(w, items, block, store'), s, layer)
    requires layer.parent == block && block.height < layer.header.height
    ensures var w' := Made(Committed(w, items, block, store'), s, layer);
            s in w'.trunk && s in w'.base && layer.pre == Cut && forall it :: w'.base[s](it) == store'(it)
  {
    MadeShape(Committed(w, items, block, store'), s, layer);
  }

  /** A new snapshot of a higher block on top of a trunk snapshot joins the trunk too, and what lies below it is what that one
      answers. */
  lemma JoinsAbove<I>(w: World<I>, items: iset<Item>, s: I, layer: Layer<I>, it: Item)
    requires Valid(w, items) && Fresh(w, s, layer) && layer.pre.To? && layer.pre.id in w.trunk
    requires layer.parent.height < layer.header.height
    ensures var w' := Made(w, s, layer);
            && s in w'.trunk && s in w'.base && layer.pre.id in w.f
            && w'.base[s](it) == Lookup(w.f, layer.pre.id, w.store, it)
  {
    var w' := Made(w, s, layer);
    MadeShape(w, s, layer);
    assert OnTrunk(w, layer.pre.id);
    GrownLookup(w.f, w'.f, w.store, layer.pre.id, it);
  }

  // --- a transaction is applied ---

  /** Snapshot `s` gets other tables, and `g` is the forest with them: the snapshots above `s` leave the trunk, and `s` with
      them unless its read table is sound. */
  function Applied<I(==)>(w: World<I>, g: Forest<I>, s: I, sound: bool): World<I>
    requires Shape(w) && w.trunk <= w.f.Keys
  {
    w.(f := g, trunk := set x | x in w.trunk && ((sound && x == s) || !Reaches(w.f, x, s)))
  }

  lemma AppliedSteady<I>(w: World<I>, g: Forest<I>, items: iset<Item>, s: I, x: I)
    requires Valid(w, items) && Retabled(w.f, g, s) && Closed(g) && x in w.trunk && x in w.f && x in w.base
    requires x == s || !Reaches(w.f, x, s)
    requires x == s ==> CacheSound(g, items, w.store, s)
    ensures Steady(g, items, w.store, x, w.base[x])
  {
    forall it ensures Below(g, x, w.store, it) == Below(w.f, x, w.store, it) {
      if w.f[x].pre.To? && Reaches(w.f, w.f[x].pre.id, s) {
        ReachedIsOlder(w.f, w.f[x].pre.id, s);
      }
      RetabledBelow(w.f, g, s, w.store, x, it);
    }
  }

  /** Whatever is applied to whichever snapshot, the invariant stays. */
  lemma ApplyKeeps<I>(w: World<I>, g: Forest<I>, items: iset<Item>, s: I, sound: bool)
    requires Valid(w, items) && w.trunk <= w.f.Keys && Retabled(w.f, g, s) && Closed(g)
    requires sound && s in w.trunk ==> CacheSound(g, items, w.store, s)
    ensures Valid(Applied(w, g, s, sound), items)
  {
    var w' := Applied(w, g, s, sound);
    assert g.Keys == w.f.Keys && |g| == |w.f|;
    forall x | x in w'.trunk ensures OnTrunk(w', x) {
      assert OnTrunk(w, x);
      if x == s && w.f[x].pre.To? && Reaches(w.f, w.f[x].pre.id, s) {
        ReachedIsOlder(w.f, w.f[x].pre.id, s);
      }
    }
    forall x | x in w'.trunk ensures Steady(g, items, w.store, x, w.base[x]) {
      assert OnTrunk(w, x);
      AppliedSteady(w, g, items, s, x);
    }
  }
}
