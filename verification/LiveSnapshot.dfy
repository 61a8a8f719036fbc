/** A trunk snapshot while transactions run on it and the manager goes on: reads that miss its tables walk down the previous
    snapshots link by link, and blocks are committed, made and dropped between the steps. */
module LiveSnapshot {
  import opened Basics
  import opened SnapshotForest
  import opened SnapshotTrunk
  import opened OptimisticApply
  import opened OptimisticApplyProof
  import opened OptimisticApplyTheorems
  import SnapshotTables
  import TxLog

  type Key = string

  // --- a walk down the previous snapshots ---

  /** Where a walk is: about to look into a snapshot, about to read the store, or done. */
  datatype Place<I> = At(p: I) | AtStore | Got(answer: Result<Value>)

  predicate Misses<I(==)>(f: Forest<I>, i: I, k: Key)
    requires i in f
  {
    k !in f[i].written && k !in f[i].cached
  }

  predicate Linked<I>(f: Forest<I>, link: Link<I>) {
    link.To? ==> link.id in f
  }

  function LinkRank<I>(f: Forest<I>, link: Link<I>): nat
    requires Linked(f, link)
  {
    if link.To? then f[link.id].made + 1 else 0
  }

  /** The snapshots from `link` down to `stop`, or all if it is not there, miss the key. */
  predicate AllMiss<I(==)>(f: Forest<I>, link: Link<I>, k: Key, stop: Option<I>)
    requires Closed(f) && Linked(f, link)
    decreases LinkRank(f, link)
  {
    link.To? && stop != Some(link.id) ==> Misses(f, link.id, k) && AllMiss(f, f[link.id].pre, k, stop)
  }

  /** `p` is strictly below `x`. */
  predicate Under<I(==)>(f: Forest<I>, x: I, p: I)
    requires Closed(f) && x in f
  {
    f[x].pre.To? && Reaches(f, f[x].pre.id, p)
  }

  /** One step of the walk of a read of `it` that started at `x`. */
  function Walked<I(==)>(w: World<I>, x: I, it: Item, at: Option<Place<I>>): Place<I>
    requires Closed(w.f) && x in w.f && (at.Some? && at.value.At? ==> at.value.p in w.f)
  {
    match at
    case None => if w.f[x].pre.To? then At(w.f[x].pre.id) else AtStore
    case Some(At(p)) =>
      var k := FinalKey(it);
      if k in w.f[p].written then Got(Ok(w.f[p].written[k]))
      else if k in w.f[p].cached then Got(Ok(w.f[p].cached[k]))
      else if w.f[p].pre.To? then At(w.f[p].pre.id)
      else AtStore
    case Some(AtStore) => Got(w.store(it))
    case Some(Got(r)) => Got(r)
  }

  /** The walk will answer what lay below `x` when it was made: what it has passed misses the key, and a snapshot that has
      left the chain has no link. */
  ghost predicate PlaceOk<I>(w: World<I>, x: I, it: Item, at: Place<I>)
    requires Closed(w.f) && x in w.f && x in w.base
  {
    match at
    case At(p) =>
      && p in w.f && AllMiss(w.f, w.f[x].pre, FinalKey(it), Some(p))
      && Lookup(w.f, p, w.store, it) == w.base[x](it)
      && (Under(w.f, x, p) || w.f[p].pre.Cut?)
    case AtStore => AllMiss(w.f, w.f[x].pre, FinalKey(it), None)
    case Got(r) => r == w.base[x](it)
  }

  /** The chain that misses everything falls through to the store. */
  lemma {:induction false} FallsToStore<I>(f: Forest<I>, link: Link<I>, store: Store, it: Item)
    requires Closed(f) && Linked(f, link) && AllMiss(f, link, FinalKey(it), None)
    ensures link.To? ==> Lookup(f, link.id, store, it) == store(it)
    decreases LinkRank(f, link)
  {
    if link.Cut? {
    } else {
      FallsToStore(f, f[link.id].pre, store, it);
    }
  }

  /** The walk goes one link on. */
  lemma {:induction false} MissOnward<I>(f: Forest<I>, link: Link<I>, k: Key, p: I)
    requires Closed(f) && Linked(f, link) && p in f && AllMiss(f, link, k, Some(p)) && Misses(f, p, k)
    requires (link.To? && Reaches(f, link.id, p)) || f[p].pre.Cut?
    ensures AllMiss(f, link, k, if f[p].pre.To? then Some(f[p].pre.id) else None)
    decreases LinkRank(f, link)
  {
    if link.To? && link.id != p {
      MissOnward(f, f[link.id].pre, k, p);
    } else if link.To? && f[p].pre.To? {
      assert AllMiss(f, f[p].pre, k, Some(f[p].pre.id));
    }
  }

  lemma {:induction false} ReachesOnward<I>(f: Forest<I>, i: I, p: I)
    requires Closed(f) && i in f && p in f && Reaches(f, i, p) && f[p].pre.To?
    ensures Reaches(f, i, f[p].pre.id)
    decreases f[i].made
  {
    if i == p {
    } else {
      ReachesOnward(f, f[i].pre.id, p);
    }
  }

  /** A step of the walk. */
  lemma WalkOk<I>(w: World<I>, items: iset<Item>, x: I, it: Item, at: Option<Place<I>>)
    requires Valid(w, items) && x in w.trunk && x in w.f && x in w.base && it in items
    requires at.Some? ==> PlaceOk(w, x, it, at.value)
    ensures PlaceOk(w, x, it, Walked(w, x, it, at))
  {
    var f, k := w.f, FinalKey(it);
    assert Below(f, x, w.store, it) == w.base[x](it);
    match at {
      case None =>
      case Some(At(p)) =>
        if Misses(f, p, k) {
          MissOnward(f, f[x].pre, k, p);
          assert Lookup(f, p, w.store, it) == Below(f, p, w.store, it);
          if f[p].pre.To? {
            ReachesOnward(f, f[x].pre.id, p);
          }
        }
      case Some(AtStore) => FallsToStore(f, f[x].pre, w.store, it);
      case Some(Got(_)) =>
    }
  }

  // --- the manager goes on ---

  lemma {:induction false} GrownMiss<I>(f: Forest<I>, g: Forest<I>, link: Link<I>, k: Key, stop: Option<I>)
    requires Closed(f) && Closed(g) && Grown(f, g) && Linked(f, link) && AllMiss(f, link, k, stop)
    ensures AllMiss(g, link, k, stop)
    decreases LinkRank(f, link)
  {
    if link.Cut? || stop == Some(link.id) {
    } else {
      GrownMiss(f, g, f[link.id].pre, k, stop);
    }
  }

  lemma {:induction false} GrownReaches<I>(f: Forest<I>, g: Forest<I>, i: I, p: I)
    requires Closed(f) && Closed(g) && Grown(f, g) && i in f && Reaches(f, i, p)
    ensures Reaches(g, i, p)
    decreases f[i].made
  {
    if i == p {
    } else {
      GrownReaches(f, g, f[i].pre.id, p);
    }
  }

  /** A snapshot is made. */
  lemma MadePlace<I>(w: World<I>, items: iset<Item>, s: I, layer: Layer<I>, x: I, it: Item, at: Place<I>)
    requires Valid(w, items) && Fresh(w, s, layer) && x in w.f && x in w.base && PlaceOk(w, x, it, at)
    ensures var w' := Made(w, s, layer); Closed(w'.f) && x in w'.f && x in w'.base && PlaceOk(w', x, it, at)
  {
    var w' := Made(w, s, layer);
    MadeShape(w, s, layer);
    match at {
      case At(p) =>
        GrownMiss(w.f, w'.f, w.f[x].pre, FinalKey(it), Some(p));
        GrownLookup(w.f, w'.f, w.store, p, it);
        if Under(w.f, x, p) {
          GrownReaches(w.f, w'.f, w.f[x].pre.id, p);
        }
      case AtStore => GrownMiss(w.f, w'.f, w.f[x].pre, FinalKey(it), None);
      case Got(_) =>
    }
  }

  lemma {:induction false} TrimmedMiss<I>(f: Forest<I>, g: Forest<I>, link: Link<I>, k: Key, stop: Option<I>)
    requires Closed(f) && Closed(g) && Trimmed(f, g) && Linked(f, link) && AllMiss(f, link, k, stop)
    ensures AllMiss(g, link, k, stop)
    decreases LinkRank(f, link)
  {
    if link.Cut? || stop == Some(link.id) {
    } else {
      TrimmedMiss(f, g, f[link.id].pre, k, stop);
    }
  }

  /** Two snapshots below one are one below the other. */
  lemma {:induction false} OneChain<I>(f: Forest<I>, i: I, p: I, b: I)
    requires Closed(f) && i in f && Reaches(f, i, p) && Reaches(f, i, b)
    ensures p in f && b in f && (Reaches(f, p, b) || Reaches(f, b, p))
    decreases f[i].made
  {
    if i == p || i == b {
      ReachedIsOlder(f, i, p);
      ReachedIsOlder(f, i, b);
    } else {
      OneChain(f, f[i].pre.id, p, b);
    }
  }

  /** What is passed on the way to `b` misses the key. */
  lemma {:induction false} PassedMisses<I>(f: Forest<I>, i: I, k: Key, stop: Option<I>, b: I)
    requires Closed(f) && i in f && AllMiss(f, To(i), k, stop) && Reaches(f, i, b)
    requires stop.Some? ==> !Reaches(f, i, stop.value)
    ensures b in f && Misses(f, b, k)
    decreases f[i].made
  {
    if i == b {
    } else {
      PassedMisses(f, f[i].pre.id, k, stop, b);
    }
  }

  /** A part of an unbroken chain is unbroken and stays linked. */
  lemma {:induction false} UnbrokenPart<I>(w: World<I>, block: Header, i: I, p: I, b: I)
    requires Shape(w) && i in w.f && p in w.f && p != b
    requires Unbroken(w, block, i, b) && Reaches(w.f, i, p) && Reaches(w.f, p, b)
    ensures Unbroken(w, block, p, b) && Closed(Unlinked(w, block)) && Reaches(Unlinked(w, block), i, p)
    decreases w.f[i].made
  {
    UnlinkedTrims(w, block);
    if i == p {
    } else {
      ReachedIsOlder(w.f, p, b);
      ReachedIsOlder(w.f, i, p);
      var q := w.f[i].pre.id;
      if q == b {
        ReachedIsOlder(w.f, q, p);
      }
      UnbrokenPart(w, block, q, p, b);
    }
  }

  lemma TipIsCut<I>(w: World<I>, items: iset<Item>, block: Header, store': Store)
    requires Valid(w, items) && InOrder(w, items, block, store')
    ensures w.held[block] in w.f && w.f[w.held[block]].pre.Cut?
  {
    var b := w.held[block];
    assert OnTrunk(w, b);
    assert w.f[b].pre.To? ==> OnTrunk(w, w.f[b].pre.id);
  }

  /** Before the commit the walk is still on the chain: */
  lemma CommitUnder<I>(w: World<I>, items: iset<Item>, block: Header, store': Store, x: I, it: Item, p: I)
    requires Valid(w, items) && w.trunk <= w.f.Keys && x in Committed(w, items, block, store').trunk && it in items
    requires p in w.f && Under(w.f, x, p)
    ensures var g := Unlinked(w, block);
            && Closed(g) && Lookup(g, p, store', it) == Lookup(w.f, p, w.store, it)
            && (Under(g, x, p) || g[p].pre.Cut?)
  {
    var b := w.held[block];
    UnlinkedTrims(w, block);
    TipIsCut(w, items, block, store');
    TrunkRises(w, items, x, b);
    RisesUnbroken(w, x, b);
    OneChain(w.f, x, p, b);
    if p != b {
      ReachedIsOlder(w.f, w.f[x].pre.id, p);
      UnbrokenPart(w, block, x, p, b);
    }
    CommitReads(w, items, block, store', p, it);
  }

  /** or it is at a snapshot that was committed before. */
  lemma CommitOff<I>(w: World<I>, items: iset<Item>, block: Header, store': Store, x: I, it: Item, p: I)
    requires Valid(w, items) && w.trunk <= w.f.Keys && x in Committed(w, items, block, store').trunk && it in items
    requires p in w.f && !Under(w.f, x, p) && w.f[p].pre.Cut? && AllMiss(w.f, w.f[x].pre, FinalKey(it), Some(p))
    ensures var g := Unlinked(w, block);
            Closed(g) && Lookup(g, p, store', it) == Lookup(w.f, p, w.store, it) && g[p].pre.Cut?
  {
    var b := w.held[block];
    UnlinkedTrims(w, block);
    PassedMisses(w.f, w.f[x].pre.id, FinalKey(it), Some(p), b);
    assert store'(it) == w.store(it);
  }

  /** A block is committed. */
  lemma CommitPlace<I>(w: World<I>, items: iset<Item>, block: Header, store': Store, x: I, it: Item, at: Place<I>)
    requires Valid(w, items) && w.trunk <= w.f.Keys && x in Committed(w, items, block, store').trunk && it in items
    requires x in w.f && x in w.base && PlaceOk(w, x, it, at)
    ensures var w' := Committed(w, items, block, store');
            Closed(w'.f) && x in w'.f && x in w'.base && PlaceOk(w', x, it, at)
  {
    var w', k := Committed(w, items, block, store'), FinalKey(it);
    UnlinkedTrims(w, block);
    match at {
      case At(p) =>
        TrimmedMiss(w.f, w'.f, w.f[x].pre, k, Some(p));
        if Under(w.f, x, p) {
          CommitUnder(w, items, block, store', x, it, p);
        } else {
          CommitOff(w, items, block, store', x, it, p);
        }
      case AtStore => TrimmedMiss(w.f, w'.f, w.f[x].pre, k, None);
      case Got(_) =>
    }
  }

  lemma {:induction false} RetabledMiss<I>(f: Forest<I>, g: Forest<I>, o: I, link: Link<I>, k: Key, stop: Option<I>)
    requires Closed(f) && Closed(g) && Retabled(f, g, o) && Linked(f, link) && AllMiss(f, link, k, stop)
    requires link.To? ==> !Reaches(f, link.id, o)
    ensures AllMiss(g, link, k, stop)
    decreases LinkRank(f, link)
  {
    if link.Cut? || stop == Some(link.id) {
    } else {
      RetabledMiss(f, g, o, f[link.id].pre, k, stop);
    }
  }

  lemma {:induction false} RetabledReaches<I>(f: Forest<I>, g: Forest<I>, o: I, i: I, p: I)
    requires Closed(f) && Closed(g) && Retabled(f, g, o) && i in f && Reaches(f, i, p)
    ensures Reaches(g, i, p)
    decreases f[i].made
  {
    if i == p {
    } else {
      RetabledReaches(f, g, o, f[i].pre.id, p);
    }
  }

  lemma {:induction false} ReachesOn<I>(f: Forest<I>, i: I, p: I, o: I)
    requires Closed(f) && i in f && p in f && Reaches(f, i, p) && Reaches(f, p, o)
    ensures Reaches(f, i, o)
    decreases f[i].made
  {
    if i == p {
    } else {
      ReachesOn(f, f[i].pre.id, p, o);
    }
  }

  lemma AppliedUnder<I>(w: World<I>, g: Forest<I>, o: I, x: I, it: Item, p: I)
    requires Shape(w) && Retabled(w.f, g, o) && Closed(g) && x in w.f && p in w.f && !Reaches(w.f, x, o)
    requires p != o && (Under(w.f, x, p) || w.f[p].pre.Cut?)
    ensures Lookup(g, p, w.store, it) == Lookup(w.f, p, w.store, it) && (Under(g, x, p) || g[p].pre.Cut?)
  {
    if Under(w.f, x, p) {
      RetabledReaches(w.f, g, o, w.f[x].pre.id, p);
      if Reaches(w.f, p, o) {
        ReachesOn(w.f, w.f[x].pre.id, p, o);
      }
    }
    RetabledLookup(w.f, g, o, w.store, p, it);
  }

  /** A transaction is applied to another snapshot. */
  lemma AppliedPlace<I>(w: World<I>, g: Forest<I>, o: I, sound: bool, x: I, it: Item, at: Place<I>)
    requires Shape(w) && w.trunk <= w.f.Keys && Retabled(w.f, g, o) && Closed(g)
    requires x in w.f && x in w.base && x != o && !Reaches(w.f, x, o) && PlaceOk(w, x, it, at) && at != At(o)
    ensures var w' := Applied(w, g, o, sound); PlaceOk(w', x, it, at)
  {
    match at {
      case At(p) =>
        RetabledMiss(w.f, g, o, w.f[x].pre, FinalKey(it), Some(p));
        AppliedUnder(w, g, o, x, it, p);
      case AtStore => RetabledMiss(w.f, g, o, w.f[x].pre, FinalKey(it), None);
      case Got(_) =>
    }
  }

  // --- transactions and manager together ---

  /** The world with the tables of the running snapshot left out, those tables with the contexts, and the walks of reads
      that missed them. */
  datatype Live<!I> = Live(w: World<I>, s: State, walks: map<(nat, Key), Place<I>>)

  /** A step of a transaction, of a walk, or of the manager. */
  datatype Move<!I> =
    | Act(a: Action)
    | Walk(t: nat, key: Key)
    | Make(i: I, layer: Layer<I>)
    | Drop(o: I)
    | Commit(block: Header, store': Store)
    | Apply(o: I, g: Forest<I>, sound: bool)

  /** The key that an action reads below the snapshot. */
  function BaseKey(s: State, a: Action): Option<Key>
    requires Enabled(s, a)
  {
    if a.ReadBase? then Some(s.txs[a.t].phase.key)
    else if a.BatchGet? && a.step.AskBelow? then Some(a.step.key)
    else None
  }

  /** The config of a step whose read below the snapshot answers `v`. */
  function Reading(c: Config, v: Value): Config {
    c.(base := (k: Key) => v)
  }

  /** The value a walk has brought. */
  function Brought<I(==)>(l: Live<I>, a: Action): Value
    requires Enabled(l.s, a)
  {
    var k := BaseKey(l.s, a);
    if k.Some? && (a.t, k.value) in l.walks && l.walks[(a.t, k.value)].Got? && l.walks[(a.t, k.value)].answer.Ok?
    then l.walks[(a.t, k.value)].answer.value
    else ""
  }

  /** Moves while `x` stays on the trunk.  A read below the snapshot ends when its walk has brought a value. */
  ghost predicate CanMove<I>(items: iset<Item>, x: I, l: Live<I>, m: Move<I>)
    requires Valid(l.w, items) && l.w.trunk <= l.w.f.Keys
  {
    match m
    case Act(a) =>
      && Enabled(l.s, a)
      && (BaseKey(l.s, a).Some? ==>
            && (a.t, BaseKey(l.s, a).value) in l.walks && l.walks[(a.t, BaseKey(l.s, a).value)].Got?
            && l.walks[(a.t, BaseKey(l.s, a).value)].answer.Ok?)
    case Walk(_, _) => true
    case Make(i, layer) => Fresh(l.w, i, layer)
    case Drop(o) =>
      && o in l.w.f && l.w.f[o].header in l.w.held && l.w.held[l.w.f[o].header] == o
      && x in Dropped(l.w, o).trunk
    case Commit(block, store') => x in Committed(l.w, items, block, store').trunk
    case Apply(o, g, sound) =>
      && Retabled(l.w.f, g, o) && Closed(g) && (sound && o in l.w.trunk ==> CacheSound(g, items, l.w.store, o))
      && x != o && x in Applied(l.w, g, o, sound).trunk
      && forall r :: r in l.walks ==> l.walks[r] != At(o)
  }

  ghost function Moved<I>(c: Config, items: iset<Item>, item: Key -> Item, x: I, l: Live<I>, m: Move<I>): Live<I>
    requires Valid(l.w, items) && l.w.trunk <= l.w.f.Keys && x in l.w.f && CanMove(items, x, l, m)
    requires forall r :: r in l.walks && l.walks[r].At? ==> l.walks[r].p in l.w.f
  {
    match m
    case Act(a) => l.(s := Do(Reading(c, Brought(l, a)), l.s, a))
    case Walk(t, k) =>
      var at := if (t, k) in l.walks then Some(l.walks[(t, k)]) else None;
      l.(walks := l.walks[(t, k) := Walked(l.w, x, item(k), at)])
    case Make(i, layer) => l.(w := Made(l.w, i, layer))
    case Drop(o) => l.(w := Dropped(l.w, o))
    case Commit(block, store') => l.(w := Committed(l.w, items, block, store'))
    case Apply(o, g, sound) => l.(w := Applied(l.w, g, o, sound))
  }

  /** Every table key has an item, and below the snapshot all of them could be read when it was made. */
  ghost predicate Settled<I>(c: Config, items: iset<Item>, item: Key -> Item, x: I, w: World<I>) {
    x in w.base && forall k :: item(k) in items && FinalKey(item(k)) == k && w.base[x](item(k)) == Ok(c.base(k))
  }

  ghost predicate LiveInv<I>(c: Config, items: iset<Item>, item: Key -> Item, x: I, l: Live<I>) {
    && Valid(l.w, items) && l.w.trunk <= l.w.f.Keys && x in l.w.trunk && x in l.w.f && Settled(c, items, item, x, l.w)
    && (forall r :: r in l.walks ==> PlaceOk(l.w, x, item(r.1), l.walks[r]))
    && Inv(c, l.s) && Trusting(c, l.s)
  }

  /** Only reads below the snapshot depend on `base`. */
  lemma BaseOnly(c: Config, s: State, a: Action, v: Value)
    requires Enabled(s, a) && (BaseKey(s, a).Some? ==> v == c.base(BaseKey(s, a).value))
    ensures Do(Reading(c, v), s, a) == Do(c, s, a)
  {
  }

  lemma ActKeeps<I>(c: Config, items: iset<Item>, item: Key -> Item, x: I, l: Live<I>, a: Action)
    requires LiveInv(c, items, item, x, l) && CanMove(items, x, l, Act(a))
    requires c.version >= READS_OF_FAILED_RUNS_DROPPED || (a.Finish? ==> a.success)
    ensures Moved(c, items, item, x, l, Act(a)) == l.(s := Do(c, l.s, a))
    ensures LiveInv(c, items, item, x, Moved(c, items, item, x, l, Act(a)))
  {
    if BaseKey(l.s, a).Some? {
      var k := BaseKey(l.s, a).value;
      assert PlaceOk(l.w, x, item(k), l.walks[(a.t, k)]);
    }
    BaseOnly(c, l.s, a, Brought(l, a));
    StepKeeps(c, l.s, a);
    StepTrusting(c, l.s, a);
  }

  lemma WalkKeeps<I>(c: Config, items: iset<Item>, item: Key -> Item, x: I, l: Live<I>, t: nat, k: Key)
    requires LiveInv(c, items, item, x, l)
    ensures LiveInv(c, items, item, x, Moved(c, items, item, x, l, Walk(t, k)))
  {
    WalkOk(l.w, items, x, item(k), if (t, k) in l.walks then Some(l.walks[(t, k)]) else None);
  }

  lemma MadeAt<I>(w: World<I>, items: iset<Item>, i: I, layer: Layer<I>, x: I)
    requires Valid(w, items) && Fresh(w, i, layer) && x in w.f && x in w.base && x in w.trunk
    ensures var w' := Made(w, i, layer); x in w'.f && x in w'.trunk && x in w'.base && w'.base[x] == w.base[x]
  {
  }

  lemma MakeMoveKeeps<I>(c: Config, items: iset<Item>, item: Key -> Item, x: I, l: Live<I>, i: I, layer: Layer<I>)
    requires LiveInv(c, items, item, x, l) && Fresh(l.w, i, layer)
    ensures LiveInv(c, items, item, x, Moved(c, items, item, x, l, Make(i, layer)))
  {
    MakeKeeps(l.w, items, i, layer);
    TrunkInForest(Made(l.w, i, layer), items);
    MadeAt(l.w, items, i, layer, x);
    forall r | r in l.walks ensures PlaceOk(Made(l.w, i, layer), x, item(r.1), l.walks[r]) {
      MadePlace(l.w, items, i, layer, x, item(r.1), l.walks[r]);
    }
  }

  lemma DropMoveKeeps<I>(c: Config, items: iset<Item>, item: Key -> Item, x: I, l: Live<I>, o: I)
    requires LiveInv(c, items, item, x, l) && CanMove(items, x, l, Drop(o))
    ensures LiveInv(c, items, item, x, Moved(c, items, item, x, l, Drop(o)))
  {
    DropKeeps(l.w, items, o);
  }

  lemma CommitMoveKeeps<I>(c: Config, items: iset<Item>, item: Key -> Item, x: I, l: Live<I>, block: Header, store': Store)
    requires LiveInv(c, items, item, x, l) && CanMove(items, x, l, Commit(block, store'))
    ensures LiveInv(c, items, item, x, Moved(c, items, item, x, l, Commit(block, store')))
  {
    var w' := Committed(l.w, items, block, store');
    CommitKeeps(l.w, items, block, store');
    TrunkInForest(w', items);
    forall r | r in l.walks ensures PlaceOk(w', x, item(r.1), l.walks[r]) {
      CommitPlace(l.w, items, block, store', x, item(r.1), l.walks[r]);
    }
  }

  lemma ApplyMoveKeeps<I>(c: Config, items: iset<Item>, item: Key -> Item, x: I, l: Live<I>, o: I, g: Forest<I>, sound: bool)
    requires LiveInv(c, items, item, x, l) && CanMove(items, x, l, Apply(o, g, sound))
    ensures LiveInv(c, items, item, x, Moved(c, items, item, x, l, Apply(o, g, sound)))
  {
    var w' := Applied(l.w, g, o, sound);
    ApplyKeeps(l.w, g, items, o, sound);
    TrunkInForest(w', items);
    forall r | r in l.walks ensures PlaceOk(w', x, item(r.1), l.walks[r]) {
      AppliedPlace(l.w, g, o, sound, x, item(r.1), l.walks[r]);
    }
  }

  /** No run fails where the reads of failed runs would be kept. */
  predicate Sure<I>(c: Config, m: Move<I>) {
    c.version >= READS_OF_FAILED_RUNS_DROPPED || (m.Act? && m.a.Finish? ==> m.a.success)
  }

  lemma MoveKeeps<I>(c: Config, items: iset<Item>, item: Key -> Item, x: I, l: Live<I>, m: Move<I>)
    requires LiveInv(c, items, item, x, l) && CanMove(items, x, l, m) && Sure(c, m)
    ensures LiveInv(c, items, item, x, Moved(c, items, item, x, l, m))
  {
    match m {
      case Act(a) => ActKeeps(c, items, item, x, l, a);
      case Walk(t, k) => WalkKeeps(c, items, item, x, l, t, k);
      case Make(i, layer) => MakeMoveKeeps(c, items, item, x, l, i, layer);
      case Drop(o) => DropMoveKeeps(c, items, item, x, l, o);
      case Commit(block, store') => CommitMoveKeeps(c, items, item, x, l, block, store');
      case Apply(o, g, sound) => ApplyMoveKeeps(c, items, item, x, l, o, g, sound);
    }
  }

  // --- whole runs ---

  /** The moves can happen one after the other. */
  ghost predicate MovesFrom<I>(c: Config, items: iset<Item>, item: Key -> Item, x: I, l: Live<I>, moves: seq<Move<I>>)
    decreases |moves|
  {
    moves != [] ==>
      && Valid(l.w, items) && l.w.trunk <= l.w.f.Keys && x in l.w.f
      && (forall r :: r in l.walks && l.walks[r].At? ==> l.walks[r].p in l.w.f)
      && CanMove(items, x, l, moves[0]) && Sure(c, moves[0])
      && MovesFrom(c, items, item, x, Moved(c, items, item, x, l, moves[0]), moves[1..])
  }

  ghost function MovedTo<I>(c: Config, items: iset<Item>, item: Key -> Item, x: I, l: Live<I>, moves: seq<Move<I>>): Live<I>
    requires MovesFrom(c, items, item, x, l, moves)
    decreases |moves|
  {
    if moves == [] then l else MovedTo(c, items, item, x, Moved(c, items, item, x, l, moves[0]), moves[1..])
  }

  lemma {:induction false} MovesKeep<I>(c: Config, items: iset<Item>, item: Key -> Item, x: I, l: Live<I>, moves: seq<Move<I>>)
    requires LiveInv(c, items, item, x, l) && MovesFrom(c, items, item, x, l, moves)
    ensures LiveInv(c, items, item, x, MovedTo(c, items, item, x, l, moves))
    decreases |moves|
  {
    if moves == [] {
    } else {
      MoveKeeps(c, items, item, x, l, moves[0]);
      MovesKeep(c, items, item, x, Moved(c, items, item, x, l, moves[0]), moves[1..]);
    }
  }

  /** The forest with the tables of the running snapshot. */
  function Whole<I(==)>(l: Live<I>, x: I): Forest<I>
    requires x in l.w.f
  {
    l.w.f[x := l.w.f[x].(cached := SnapshotTables.Values(l.s.readTable), written := SnapshotTables.Values(l.s.writeTable))]
  }

  lemma WholeReads<I>(c: Config, items: iset<Item>, item: Key -> Item, x: I, l: Live<I>, k: Key)
    requires LiveInv(c, items, item, x, l)
    ensures Closed(Whole(l, x)) && Lookup(Whole(l, x), x, l.w.store, item(k)) == Ok(GetKey(c, l.s, k))
  {
    var f, g, it := l.w.f, Whole(l, x), item(k);
    RetabledClosed(f, g, x);
    if f[x].pre.To? && Reaches(f, f[x].pre.id, x) {
      ReachedIsOlder(f, f[x].pre.id, x);
    }
    RetabledBelow(f, g, x, l.w.store, x, it);
    assert Below(f, x, l.w.store, it) == l.w.base[x](it);
  }

  lemma SerialReads<I>(c: Config, items: iset<Item>, item: Key -> Item, x: I, l: Live<I>, k: Key)
    requires LiveInv(c, items, item, x, l) && k !in Pending(l.s)
    ensures Closed(Whole(l, x))
    ensures Lookup(Whole(l, x), x, l.w.store, item(k)) == Ok(TxLog.SerialValue(c.base, l.s.table, k))
  {
    WholeReads(c, items, item, x, l, k);
    assert CellAt(l.s.writeTable, k) == ExpectedCell(l.s, k);
    TxLog.SerialValueByWriter(c.base, l.s.table, k);
  }

  /** While transactions run on a trunk snapshot blocks are committed, made, dropped and filled, and reads walk down links that
      are cut meanwhile.  As long as the snapshot stays on the trunk, every accepted normal or SZ transaction ran as if alone,
      after the rows before it, over what lay below the snapshot when it was made; and GetKey answers the serial value of
      every key whose writer is not half-way through its puts. */
  lemma LiveSerializability<I>(c: Config, items: iset<Item>, item: Key -> Item, x: I, w: World<I>, moves: seq<Move<I>>)
    requires Valid(w, items) && x in w.trunk && x in w.f && Settled(c, items, item, x, w)
    requires MovesFrom(c, items, item, x, Live(w, Init(), map[]), moves)
    ensures var l := MovedTo(c, items, item, x, Live(w, Init(), map[]), moves);
            && Serializable(c, l.s.table) && x in l.w.f && Closed(Whole(l, x))
            && forall k :: k !in Pending(l.s) ==>
                 Lookup(Whole(l, x), x, l.w.store, item(k)) == Ok(TxLog.SerialValue(c.base, l.s.table, k))
  {
    InitOk(c);
    TrunkInForest(w, items);
    var l := MovedTo(c, items, item, x, Live(w, Init(), map[]), moves);
    MovesKeep(c, items, item, x, Live(w, Init(), map[]), moves);
    forall k | k !in Pending(l.s)
      ensures Closed(Whole(l, x)) && Lookup(Whole(l, x), x, l.w.store, item(k)) == Ok(TxLog.SerialValue(c.base, l.s.table, k))
    {
      SerialReads(c, items, item, x, l, k);
    }
    RetabledClosed(l.w.f, Whole(l, x), x);
  }
}
