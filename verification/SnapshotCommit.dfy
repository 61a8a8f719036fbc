/** Which reads a commit keeps: exactly those through links that the commit does not break. */
module SnapshotCommit {
  import opened SnapshotForest
  import opened SnapshotTrunk

  /** The same snapshots, links and held snapshots, with any tables over any store. */
  predicate SameLinks<I>(w: World<I>, w': World<I>) {
    && w'.held == w.held && w'.f.Keys == w.f.Keys
    && forall i :: i in w.f ==> w'.f[i] == w.f[i].(cached := w'.f[i].cached, written := w'.f[i].written)
  }

  /** The store after the commit answers `it` as `b` did before. */
  predicate Absorbed<I(==)>(w: World<I>, b: I, store': Store, it: Item) {
    Shape(w) && b in w.f && Lookup(w.f, b, w.store, it) == store'(it)
  }

  /** Snapshot `i` reads `it` after a commit of the block as before. */
  predicate Keeps<I(==)>(w: World<I>, block: Header, store': Store, i: I, it: Item) {
    && Shape(w) && i in w.f && Closed(Unlinked(w, block))
    && Lookup(Unlinked(w, block), i, store', it) == Lookup(w.f, i, w.store, it)
  }

  // --- tables that show a break ---

  function Mark(): Value {
    "v"
  }

  /** A store that answers the empty value for everything. */
  function Plain(): Store {
    (it: Item) => Ok("")
  }

  /** Snapshot `p` has written one value, and all other tables are empty. */
  function Marked<I(==)>(f: Forest<I>, p: I, k: Bytes): Forest<I> {
    map i | i in f :: f[i].(cached := map[], written := if i == p then map[k := Mark()] else map[])
  }

  function MarkedWorld<I(==)>(w: World<I>, p: I, k: Bytes): (w': World<I>)
    requires Shape(w)
    ensures Closed(w'.f) && SameLinks(w, w')
  {
    var g := Marked(w.f, p, k);
    World(g, w.held, w.trunk, map s | s in w.trunk && s in w.f :: BelowOf(g, s, Plain()), w.tip, Plain())
  }

  lemma MarkedShape<I>(w: World<I>, p: I, k: Bytes)
    requires Shape(w)
    ensures Shape(MarkedWorld(w, p, k))
  {
    assert |MarkedWorld(w, p, k).f.Keys| == |w.f.Keys|;
  }

  lemma {:induction false} MarkSeen<I>(w: World<I>, i: I, p: I, it: Item)
    requires Shape(w) && i in w.f
    ensures Lookup(MarkedWorld(w, p, FinalKey(it)).f, i, Plain(), it) == Ok(if Reaches(w.f, i, p) then Mark() else "")
    decreases w.f[i].made
  {
    if i == p || w.f[i].pre.Cut? {
    } else {
      MarkSeen(w, w.f[i].pre.id, p, it);
    }
  }

  lemma SameCuts<I>(w: World<I>, w': World<I>, block: Header, i: I)
    requires Shape(w) && Shape(w') && SameLinks(w, w') && i in w.f
    ensures Cuts(w', block, i) <==> Cuts(w, block, i)
  {
  }

  lemma {:induction false} SameUnbroken<I>(w: World<I>, w': World<I>, block: Header, i: I, b: I)
    requires Shape(w) && Shape(w') && SameLinks(w, w') && i in w.f
    ensures Unbroken(w', block, i, b) <==> Unbroken(w, block, i, b)
    decreases w.f[i].made
  {
    SameCuts(w, w', block, i);
    if i == b || w.f[i].pre.Cut? {
    } else {
      SameUnbroken(w, w', block, w.f[i].pre.id, b);
    }
  }

  /** The snapshot just below the first break on the way from `i` to `b`: what it has written `i` no longer sees. */
  lemma {:induction false} Break<I>(w: World<I>, block: Header, i: I, b: I, it: Item) returns (p: I)
    requires Shape(w) && i in w.f && Reaches(w.f, i, b) && !Unbroken(w, block, i, b)
    ensures p in w.f && p != b && p != i && Reaches(w.f, i, p) && Reaches(w.f, p, b)
    ensures var w' := MarkedWorld(w, p, FinalKey(it));
            && Shape(w') && Closed(Unlinked(w', block))
            && Lookup(Unlinked(w', block), i, Plain(), it) == Ok("")
    decreases w.f[i].made
  {
    var q := w.f[i].pre.id;
    if Cuts(w, block, i) {
      p := q;
      NotBack(w.f, i, q);
      FallsThrough(w, block, i, p, it);
    } else {
      p := Break(w, block, q, b, it);
      NotBack(w.f, i, p);
      PassesOn(w, block, i, p, it);
    }
  }

  lemma NotBack<I>(f: Forest<I>, i: I, p: I)
    requires Closed(f) && i in f && f[i].pre.To? && Reaches(f, f[i].pre.id, p)
    ensures p in f && p != i
  {
    ReachedIsOlder(f, f[i].pre.id, p);
  }

  lemma FallsThrough<I>(w: World<I>, block: Header, i: I, p: I, it: Item)
    requires Shape(w) && i in w.f && i != p && Cuts(w, block, i)
    ensures var w' := MarkedWorld(w, p, FinalKey(it));
            && Shape(w') && Closed(Unlinked(w', block))
            && Lookup(Unlinked(w', block), i, Plain(), it) == Ok("")
  {
    var w' := MarkedWorld(w, p, FinalKey(it));
    MarkedShape(w, p, FinalKey(it));
    SameCuts(w, w', block, i);
    UnlinkedTrims(w', block);
    assert Unlinked(w', block)[i].pre == Cut;
  }

  lemma PassesOn<I>(w: World<I>, block: Header, i: I, p: I, it: Item)
    requires Shape(w) && i in w.f && i != p && w.f[i].pre.To? && !Cuts(w, block, i)
    requires var w' := MarkedWorld(w, p, FinalKey(it));
             && Shape(w') && Closed(Unlinked(w', block))
             && Lookup(Unlinked(w', block), w.f[i].pre.id, Plain(), it) == Ok("")
    ensures Lookup(Unlinked(MarkedWorld(w, p, FinalKey(it)), block), i, Plain(), it) == Ok("")
  {
    var w' := MarkedWorld(w, p, FinalKey(it));
    SameCuts(w, w', block, i);
    assert Unlinked(w', block)[i] == w'.f[i];
  }

  /** With those tables the commit changes the read. */
  lemma BreakMisread<I>(w: World<I>, block: Header, i: I, b: I, it: Item) returns (p: I)
    requires Shape(w) && i in w.f && Reaches(w.f, i, b) && !Unbroken(w, block, i, b)
    ensures p in w.f && p != b
    ensures var w' := MarkedWorld(w, p, FinalKey(it));
            SameLinks(w, w') && Absorbed(w', b, Plain(), it) && !Keeps(w', block, Plain(), i, it)
  {
    p := Break(w, block, i, b, it);
    ReachedIsOlder(w.f, i, b);
    MarkSeen(w, i, p, it);
    MarkSeen(w, b, p, it);
    if Reaches(w.f, b, p) {
      ReachedIsOlder(w.f, b, p);
      ReachedIsOlder(w.f, p, b);
    }
  }

  // --- exactly the unbroken links keep reads ---

  /** Whatever the tables and the stores are, the commit keeps every read of `i` of which the store has absorbed what `b`
      answers, if and only if it breaks no link from `i` down to `b`. */
  lemma KeptIffUnbroken<I(!new)>(w: World<I>, block: Header, i: I, b: I)
    requires Shape(w) && i in w.f && Reaches(w.f, i, b)
    ensures (forall w', store', it :: SameLinks(w, w') && Absorbed(w', b, store', it) ==> Keeps(w', block, store', i, it))
            <==> Unbroken(w, block, i, b)
  {
    if Unbroken(w, block, i, b) {
      forall w', store', it | SameLinks(w, w') && Absorbed(w', b, store', it) ensures Keeps(w', block, store', i, it) {
        SameUnbroken(w, w', block, i, b);
        CommitTransparent(w', block, store', i, b, it);
      }
    } else {
      var it := Item("", "");
      var p := BreakMisread(w, block, i, b, it);
      assert !Keeps(MarkedWorld(w, p, FinalKey(it)), block, Plain(), i, it);
    }
  }

  /** `block` is the next one: it has a snapshot on the trunk right above the tip. */
  predicate Next<I(==)>(w: World<I>, block: Header) {
    block in w.held && w.held[block] in w.trunk && w.held[block] in w.f && w.f[w.held[block]].parent == w.tip
  }

  /** `w'` is a valid world with the same snapshots, links and trunk as `w`, and the commit of the block is in order. */
  ghost predicate Committable<I>(w: World<I>, w': World<I>, items: iset<Item>, block: Header, store': Store) {
    && SameLinks(w, w') && w'.trunk == w.trunk && w'.tip == w.tip
    && Valid(w', items) && InOrder(w', items, block, store')
  }

  ghost predicate KeepsAll<I>(w: World<I>, items: iset<Item>, block: Header, store': Store, i: I) {
    forall it :: it in items ==> Keeps(w, block, store', i, it)
  }

  lemma MarkedValid<I>(w: World<I>, items: iset<Item>, block: Header, p: I, k: Bytes)
    requires Valid(w, items) && Next(w, block) && p != w.held[block]
    ensures Committable(w, MarkedWorld(w, p, k), items, block, Plain())
  {
    var w' := MarkedWorld(w, p, k);
    MarkedShape(w, p, k);
    forall s | s in w'.trunk ensures OnTrunk(w', s) {
      assert OnTrunk(w, s);
    }
  }

  /** In every valid world of this shape an in-order commit keeps the reads of `i`, if and only if it breaks no link from `i`
      down to the snapshot of the block. */
  lemma CommitReadsIff<I(!new)>(w: World<I>, items: iset<Item>, block: Header, i: I, it: Item)
    requires Valid(w, items) && Next(w, block) && it in items
    requires i in w.f && Reaches(w.f, i, w.held[block])
    ensures (forall w', store' :: Committable(w, w', items, block, store') ==> KeepsAll(w', items, block, store', i))
            <==> Unbroken(w, block, i, w.held[block])
  {
    var b := w.held[block];
    if Unbroken(w, block, i, b) {
      forall w', store' | Committable(w, w', items, block, store') ensures KeepsAll(w', items, block, store', i) {
        SameUnbroken(w, w', block, i, b);
        forall x | x in items ensures Keeps(w', block, store', i, x) {
          CommitReads(w', items, block, store', i, x);
        }
      }
    } else {
      var p := BreakMisread(w, block, i, b, it);
      var w' := MarkedWorld(w, p, FinalKey(it));
      MarkedValid(w, items, block, p, FinalKey(it));
      assert Committable(w, w', items, block, Plain()) && !KeepsAll(w', items, block, Plain(), i);
    }
  }

  // --- an example ---

  function Height(h: nat): Header {
    Header("", h, 0, "", "")
  }

  /** Snapshot 1 of block 1 is linked to a snapshot of block 20, and snapshot 2 of block 2 to snapshot 1. */
  function Dipping(): (f: Forest<nat>)
    ensures Closed(f)
  {
    map[0 := Layer(0, Height(20), Height(19), map[], map[], Cut),
        1 := Layer(1, Height(1), Height(20), map[], map["m" := "v"], To(0)),
        2 := Layer(2, Height(2), Height(1), map[], map[], To(1))]
  }

  function DippingWorld(store: Store): World<nat> {
    World(Dipping(), map[Height(20) := 0, Height(1) := 1, Height(2) := 2], {0}, map[0 := store], Height(19), store)
  }

  lemma DippingReaches()
    ensures Reaches(Dipping(), 2, 0)
  {
    assert Reaches(Dipping(), 1, 0);
  }

  lemma DippingNumbered()
    ensures Numbered(Dipping())
  {
    var f := Dipping();
    assert f.Keys == {0, 1, 2} && |f| == |f.Keys|;
  }

  lemma DippingShape(store: Store)
    ensures Shape(DippingWorld(store))
  {
    DippingNumbered();
  }

  lemma DippingValid(store: Store, items: iset<Item>)
    ensures Valid(DippingWorld(store), items) && InOrder(DippingWorld(store), items, Height(20), store)
  {
    DippingShape(store);
    assert OnTrunk(DippingWorld(store), 0);
  }

  lemma DippingReads(store: Store, it: Item)
    requires FinalKey(it) == "m"
    ensures Lookup(Dipping(), 2, store, it) == Ok("v")
  {
    assert Lookup(Dipping(), 1, store, it) == Ok("v") && Below(Dipping(), 2, store, it) == Ok("v");
  }

  lemma DippingCut(store: Store)
    ensures var w := DippingWorld(store);
            Shape(w) && Cuts(w, Height(20), 2) && w.f[2].pre.id == 1 && !Unbroken(w, Height(20), 2, 0)
  {
    DippingShape(store);
  }

  lemma DippingFallsThrough(store: Store, it: Item)
    ensures var w := DippingWorld(store);
            && Shape(w) && Closed(Unlinked(w, Height(20)))
            && Lookup(Unlinked(w, Height(20)), 2, store, it) == store(it)
  {
    var w := DippingWorld(store);
    DippingCut(store);
    UnlinkedTrims(w, Height(20));
    assert Unlinked(w, Height(20))[2] == w.f[2].(pre := Cut);
  }

  /** Where the heights do not rise an in-order commit can break a link: committing block 20 unlinks snapshot 2 as too old,
      and it no longer sees what snapshot 1 wrote. */
  lemma DippingLinkMisread(store: Store, items: iset<Item>, it: Item)
    requires FinalKey(it) == "m" && store(it) != Ok("v")
    ensures var w := DippingWorld(store);
            && Valid(w, items) && InOrder(w, items, Height(20), store)
            && Reaches(w.f, 2, 0) && !Unbroken(w, Height(20), 2, 0)
            && !Keeps(w, Height(20), store, 2, it)
  {
    DippingValid(store, items);
    DippingReaches();
    DippingCut(store);
    DippingReads(store, it);
    DippingFallsThrough(store, it);
  }
}
