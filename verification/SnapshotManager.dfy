/** The manager: it makes snapshots, links them to the snapshots of their previous blocks, and unlinks and drops them
    when blocks are committed. */
module SnapshotManager {
  import opened SnapshotForest
  import opened SnapshotTables
  import opened SnapshotTrunk
  import opened SnapshotImpl

  ghost predicate Holds(m: map<Header, Snapshot>, s: Snapshot) {
    s.header in m && m[s.header] == s
  }

  /** A commit leaves the other held snapshots that are at most eight blocks below. */
  predicate HeldAfter(held: map<Header, Snapshot>, block: Header, held': map<Header, Snapshot>) {
    && block !in held'
    && (forall h :: h in held' ==> h in held && held'[h] == held[h])
    && (forall h :: h in held ==> (h in held' <==> h != block && block.height - h.height <= 8))
  }

  lemma PutBack(held: map<Header, Snapshot>, block: Header, s: Snapshot)
    ensures (held - {block})[block := s] == held[block := s]
  {
  }

  twostate lemma ForestGrows(was: set<Snapshot>, new s: Snapshot)
    requires s !in was && unchanged(was)
    ensures ForestOf(was + {s}) == old(ForestOf(was))[s := s.LayerOf()]
  {
    forall x | x in was ensures x.LayerOf() == old(x.LayerOf()) {
    }
  }

  /** What a commit leaves in the link of `s`. */
  twostate predicate LinkAfter(new held: map<Header, Snapshot>, block: Header, s: Snapshot)
    reads s
  {
    s.pre == if && s.header in held && held[s.header] == s
                && (|| old(s.pre != null && s.pre.header == block)
                    || (s.header != block && Stale(block, s.header)))
             then null else old(s.pre)
  }

  /** Unlinking the held snapshots object by object is unlinking them in the forest. */
  twostate lemma ForestCut(all: set<Snapshot>, new w: World<Snapshot>, new block: Header)
    requires w.f == old(ForestOf(all)) && Shape(w)
    requires forall s :: s in all ==> s.tables == old(s.tables) && LinkAfter(w.held, block, s)
    ensures ForestOf(all) == Unlinked(w, block)
  {
    forall s | s in all ensures s.LayerOf() == Unlinked(w, block)[s] {
      assert w.f[s] == old(s.LayerOf());
    }
  }

  twostate lemma ForestRetabled(all: set<Snapshot>, new s: Snapshot)
    requires s in all && s.pre == old(s.pre)
    requires forall x :: x in all && x != s ==> x.pre == old(x.pre) && x.tables == old(x.tables)
    ensures Retabled(old(ForestOf(all)), ForestOf(all), s)
  {
    forall x | x in all && x != s ensures x.LayerOf() == old(x.LayerOf()) {
    }
  }

  /** The layer of a new snapshot. */
  ghost function Blank(made: nat, held: map<Header, Snapshot>, prev: Header, block: Header): Layer<Snapshot> {
    Layer(made, block, prev, map[], map[], if prev in held then To(held[prev]) else Cut)
  }

  class Manager {
    var snapshots: map<Header, Snapshot>
    /** Every snapshot ever made. */
    ghost var all: set<Snapshot>
    ghost var trunk: set<Snapshot>
    ghost var base: map<Snapshot, Store>
    ghost var tip: Header
    ghost var store: Store
    ghost const items: iset<Item>

    ghost function World(): World<Snapshot>
      reads this, all
    {
      SnapshotTrunk.World(ForestOf(all), snapshots, trunk, base, tip, store)
    }

    ghost predicate Valid()
      reads this, all
    {
      trunk <= all && SnapshotTrunk.Valid(World(), items)
    }

    constructor (ghost items: iset<Item>, ghost tip: Header, ghost store: Store)
      ensures Valid() && World() == SnapshotTrunk.World(map[], map[], {}, map[], tip, store)
      ensures this.items == items
    {
      snapshots := map[];
      this.items, this.tip, this.store := items, tip, store;
      all, trunk, base := {}, {}, map[];
    }

    /** The snapshot of the block is deleted, then the one under the fingerprint without consensus: there is none left. */
    method Delete(block: Header)
      modifies this`snapshots
      ensures snapshots == old(snapshots) - {block}
    {
      snapshots := snapshots - {block};
      snapshots := snapshots - {Header(block.chainId, block.height, block.timestamp, block.proposer, block.preHash)};
    }

    /** ClearSnapshot: the snapshot of the block is no longer held; links to it stay. */
    method ClearSnapshot(block: Header)
      requires Valid()
      modifies this`snapshots, this`all, this`trunk, this`base
      ensures Valid() && snapshots == old(snapshots) - {block} && all == old(all)
      ensures World() == old(Replaced(block))
    {
      ghost var w := Replaced(block);
      ReplacedValid(block);
      Delete(block);
      Adopt(w, all);
    }

    /** storeAndLinkSnapshotImpl */
    method StoreAndLink(s: Snapshot, prev: Header, block: Header)
      modifies this`snapshots, s`pre
      ensures snapshots == old(snapshots)[block := s]
      ensures s.pre == if prev in snapshots then snapshots[prev] else old(s.pre)
    {
      snapshots := snapshots[block := s];
      if prev in snapshots {
        s.pre := snapshots[prev];
      }
    }

    /** The world without the snapshot that a new one of `block` replaces. */
    ghost function Replaced(block: Header): World<Snapshot>
      requires Valid()
      reads this, all
    {
      if block in snapshots then Dropped(World(), snapshots[block]) else World()
    }

    lemma ReplacedValid(block: Header)
      requires Valid()
      ensures SnapshotTrunk.Valid(Replaced(block), items) && block !in Replaced(block).held
      ensures Replaced(block).f == ForestOf(all) && Replaced(block).held == snapshots - {block}
    {
      if block in snapshots {
        DropKeeps(World(), items, snapshots[block]);
      }
    }

    /** The new snapshot, stored and linked. */
    method Create(prev: Header, block: Header, version: nat) returns (s: Snapshot)
      modifies this`snapshots
      ensures fresh(s) && s.version == version && s.header == block && s.parent == prev
      ensures snapshots == old(snapshots)[block := s]
      ensures prev == block ==> s.pre == s
      ensures prev != block ==> s.LayerOf() == Blank(|all|, old(snapshots), prev, block)
    {
      s := new Snapshot(block, version, prev, |all|);
      StoreAndLink(s, prev, block);
    }

    /** The ghost state follows. */
    ghost method Adopt(w: World<Snapshot>, all': set<Snapshot>)
      requires ForestOf(all') == w.f && snapshots == w.held && tip == w.tip && store == w.store
      requires SnapshotTrunk.Valid(w, items)
      modifies this`all, this`trunk, this`base
      ensures World() == w && all == all' && Valid()
    {
      TrunkInForest(w, items);
      all, trunk, base := all', w.trunk, w.base;
    }

    ghost method AdoptNew(w: World<Snapshot>, s: Snapshot, layer: Layer<Snapshot>)
      requires SnapshotTrunk.Valid(w, items) && Fresh(w, s, layer) && tip == w.tip && store == w.store
      requires ForestOf(all + {s}) == w.f[s := layer] && snapshots == w.held[layer.header := s]
      modifies this`all, this`trunk, this`base
      ensures World() == Made(w, s, layer) && all == old(all) + {s} && Valid()
    {
      MakeKeeps(w, items, s, layer);
      Adopt(Made(w, s, layer), all + {s});
    }

    /** The ghost state of a manager with a new snapshot that is linked to a snapshot made before, or to none. */
    ghost method TakeLinked(held: map<Header, Snapshot>, w: World<Snapshot>, s: Snapshot, prev: Header, block: Header)
      requires SnapshotTrunk.Valid(w, items) && tip == w.tip && store == w.store && w.f.Keys == all && s !in all
      requires w.held == held - {block} && snapshots == held[block := s] && prev != block
      requires ForestOf(all + {s}) == w.f[s := Blank(|all|, held, prev, block)]
      modifies this`all, this`trunk, this`base
      ensures all == old(all) + {s} && Valid()
      ensures World() == Made(w, s, Blank(|old(all)|, held, prev, block))
    {
      PutBack(held, block, s);
      assert |w.f| == |w.f.Keys|;
      AdoptNew(w, s, Blank(|all|, held, prev, block));
    }

    /** The ghost state of a manager with a snapshot that is linked to itself. */
    ghost method TakeLooped(s: Snapshot)
      requires s.pre == s
      modifies this`all
      ensures all == old(all) + {s} && !Valid()
    {
      all := all + {s};
      assert ForestOf(all)[s].pre == To(s);
    }

    ghost method TakeNew(held: map<Header, Snapshot>, w: World<Snapshot>, s: Snapshot, prev: Header, block: Header)
      requires SnapshotTrunk.Valid(w, items) && tip == w.tip && store == w.store && w.f.Keys == all && s !in all
      requires w.held == held - {block} && snapshots == held[block := s] && (prev == block ==> s.pre == s)
      requires prev != block ==> ForestOf(all + {s}) == w.f[s := Blank(|all|, held, prev, block)]
      modifies this`all, this`trunk, this`base
      ensures all == old(all) + {s} && (Valid() <==> prev != block)
      ensures prev != block ==> World() == Made(w, s, Blank(|old(all)|, held, prev, block))
    {
      if prev == block {
        TakeLooped(s);
      } else {
        TakeLinked(held, w, s, prev, block);
      }
    }

    /** NewSnapshot: a snapshot of `block`, linked to the held snapshot of the previous block if there is one.  A block that
        is its own previous block gives a snapshot linked to itself, through which no read would end. */
    method NewSnapshot(prev: Header, block: Header, version: nat) returns (s: Snapshot)
      requires Valid()
      modifies this`snapshots, this`all, this`trunk, this`base
      ensures fresh(s) && all == old(all) + {s} && s.version == version && s.header == block
      ensures snapshots == old(snapshots)[block := s]
      ensures prev != block ==>
                Valid() && World() == Made(old(Replaced(block)), s, Blank(|old(all)|, old(snapshots), prev, block))
      ensures prev == block ==> !Valid() && s.pre == s
    {
      ghost var w := Replaced(block);
      ReplacedValid(block);
      s := Create(prev, block, version);
      ForestGrows(all, s);
      TakeNew(old(snapshots), w, s, prev, block);
    }

    /** GetSnapshot: the held snapshot of the block, or a new one. */
    method GetSnapshot(prev: Header, block: Header, version: nat) returns (s: Snapshot)
      requires Valid()
      modifies this`snapshots, this`all, this`trunk, this`base
      ensures s in all && Holds(snapshots, s) && s.header == block
      ensures block in old(snapshots) ==> s == old(snapshots)[block] && World() == old(World())
      ensures Valid() <==> block in old(snapshots) || prev != block
      ensures block !in old(snapshots) ==> fresh(s) && all == old(all) + {s}
      ensures block !in old(snapshots) && prev != block ==>
                World() == Made(old(World()), s, Blank(|old(all)|, old(snapshots), prev, block))
    {
      if block in snapshots {
        return snapshots[block];
      }
      s := NewSnapshot(prev, block, version);
    }

    /** The first loop of a commit: held snapshots linked to a snapshot of the block are unlinked. */
    method UnlinkChildren(block: Header)
      requires forall h :: h in snapshots ==> snapshots[h].header == h
      modifies snapshots.Values`pre
      ensures forall h :: h in snapshots ==>
                snapshots[h].pre == old(if snapshots[h].pre != null && snapshots[h].pre.header == block then null
                                        else snapshots[h].pre)
    {
      var todo := snapshots.Keys;
      while todo != {}
        invariant todo <= snapshots.Keys
        invariant forall h :: h in todo ==> snapshots[h].pre == old(snapshots[h].pre)
        invariant forall h :: h in snapshots.Keys - todo ==>
                    snapshots[h].pre == old(if snapshots[h].pre != null && snapshots[h].pre.header == block then null
                                            else snapshots[h].pre)
        decreases |todo|
      {
        var h :| h in todo;
        todo := todo - {h};
        var s := snapshots[h];
        if s.pre != null && s.pre.header == block {
          s.pre := null;
        }
      }
    }

    /** The second loop of a commit: held snapshots that are too old are unlinked and dropped. */
    method DropStale(block: Header)
      requires forall h :: h in snapshots ==> snapshots[h].header == h
      modifies this`snapshots, snapshots.Values`pre
      ensures forall h :: h in snapshots <==> h in old(snapshots) && !Stale(block, h)
      ensures forall h :: h in snapshots ==> snapshots[h] == old(snapshots)[h]
      ensures forall h :: h in old(snapshots) ==>
                old(snapshots)[h].pre == if Stale(block, h) then null else old(snapshots[h].pre)
    {
      var held := snapshots;
      var todo := held.Keys;
      while todo != {}
        invariant todo <= held.Keys
        invariant forall h :: h in snapshots <==> h in held && (h in todo || !Stale(block, h))
        invariant forall h :: h in snapshots ==> snapshots[h] == held[h]
        invariant forall h :: h in todo ==> held[h].pre == old(held[h].pre)
        invariant forall h :: h in held && h !in todo ==>
                    held[h].pre == if Stale(block, h) then null else old(held[h].pre)
        decreases |todo|
      {
        var h :| h in todo;
        todo := todo - {h};
        if Stale(block, h) {
          snapshots := snapshots - {h};
          held[h].pre := null;
        }
      }
    }

    /** What a commit does to the link of a held snapshot: one to a snapshot of the block is cut, and so is any link of a
        snapshot more than eight blocks below. */
    twostate predicate UnlinkedAfter(s: Snapshot, block: Header)
      reads s
    {
      s.pre == if && (|| (old(s.pre) != null && old(s.pre).header == block)
                      || (s.header != block && block.height - s.header.height > 8))
               then null else old(s.pre)
    }

    /** Unlink, delete and collect: what a commit does to the held snapshots. */
    method UnlinkAndDrop(block: Header, ghost all: set<Snapshot>)
      requires forall h :: h in snapshots ==> snapshots[h].header == h
      modifies this`snapshots, snapshots.Values`pre
      ensures snapshots == Remaining(old(snapshots), block)
      ensures forall s :: s in all ==> LinkAfter(old(snapshots), block, s)
      ensures HeldAfter(old(snapshots), block, snapshots)
      ensures forall h :: h in old(snapshots) ==> UnlinkedAfter(old(snapshots)[h], block)
    {
      UnlinkChildren(block);
      Delete(block);
      DropStale(block);
    }

    /** The ghost state follows a commit. */
    ghost method AdoptCommit(w: World<Snapshot>)
      requires ForestOf(all) == w.f && snapshots == w.held && SnapshotTrunk.Valid(w, items)
      modifies this`trunk, this`base, this`tip, this`store
      ensures World() == w && Valid()
    {
      TrunkInForest(w, items);
      trunk, base, tip, store := w.trunk, w.base, w.tip, w.store;
    }

    ghost method TakeCommit(w: World<Snapshot>, block: Header, store': Store)
      requires SnapshotTrunk.Valid(w, items) && w.trunk <= w.f.Keys
      requires ForestOf(all) == Unlinked(w, block) && snapshots == Remaining(w.held, block)
      modifies this`trunk, this`base, this`tip, this`store
      ensures Valid() && World() == Committed(w, items, block, store')
      ensures InOrder(w, items, block, store') ==> ReadsKept(w, World(), items, block)
    {
      CommitKeeps(w, items, block, store');
      CommitReadsAll(w, items, block, store');
      AdoptCommit(Committed(w, items, block, store'));
    }

    /** NotifyBlockCommitted, with the store that has the block in it. */
    method NotifyBlockCommitted(block: Header, ghost store': Store)
      requires Valid()
      modifies this, snapshots.Values`pre
      ensures Valid() && World() == Committed(old(World()), items, block, store')
      ensures InOrder(old(World()), items, block, store') ==> ReadsKept(old(World()), World(), items, block)
      ensures HeldAfter(old(snapshots), block, snapshots)
      ensures forall h :: h in old(snapshots) ==> UnlinkedAfter(old(snapshots)[h], block)
    {
      ghost var w := World();
      UnlinkAndDrop(block, all);
      ForestCut(all, w, block);
      TakeCommit(w, block, store');
    }

    /** The reads of a transaction are what the snapshot gave, and no two items share a table key. */
    ghost predicate SoundReads(s: Snapshot, tx: Bytes, rw: RwSet, result: Bytes, success: bool)
      requires Valid() && s in all
      reads this, all
    {
      && Separated(items)
      && Faithful(ForestOf(all), s, items, store, rw.txReads, ApplyTx(s.version, s.tables, tx, rw, result, success).writeTable)
    }

    /** A transaction is applied to a snapshot.  Those above it leave the trunk, and it does too unless the reads are
        sound. */
    method ApplyTo(s: Snapshot, tx: Bytes, rw: RwSet, result: Bytes, success: bool)
      requires Valid() && s in all
      modifies s`tables, this`all, this`trunk, this`base
      ensures Valid() && all == old(all) && s.tables == ApplyTx(s.version, old(s.tables), tx, rw, result, success)
      ensures Retabled(old(ForestOf(all)), ForestOf(all), s)
      ensures World() == Applied(old(World()), ForestOf(all), s, old(SoundReads(s, tx, rw, result, success)))
    {
      ghost var w := World();
      ghost var sound := SoundReads(s, tx, rw, result, success);
      s.Apply(tx, rw, result, success);
      ghost var g := ForestOf(all);
      ForestRetabled(all, s);
      RetabledClosed(w.f, g, s);
      if sound && s in trunk {
        ApplySound(w.f, g, s, items, store, s.version, old(s.tables), tx, rw, result, success);
      }
      ApplyKeeps(w, g, items, s, sound);
      Adopt(Applied(w, g, s, sound), all);
    }
  }
}
