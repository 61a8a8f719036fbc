/** The graph BuildDAG returns, as the replaying node uses it. */
module BuiltGraph {
  import opened Basics
  import opened Closure
  import opened ConflictGraph
  import opened BuildDag
  import opened DagOrders
  import opened DagScheduler
  import TxLog

  /** BuildDAG's graph is accepted by initSimulateDag, and it orders every conflict if and only if every writer hidden
      by a repeated write of the same bare key is reached some other way. */
  method BuildForReplay(txs: seq<RwKeys>) returns (dag: seq<seq<nat>>)
    ensures |dag| == |txs| && Accepted(dag) && Down(Edges(dag))
    ensures forall i :: 0 <= i < |txs| ==> Reach(Edges(dag), i) == Reach(SeenGraph(txs), i)
    ensures (forall i, j :: 0 <= i < |txs| && Conflict(txs, i, j) ==> j in Reach(Edges(dag), i)) <==> HiddenCovered(txs)
    ensures (forall order :: Allowed(Edges(dag), order) ==> KeepsConflicts(txs, order)) <==> HiddenCovered(txs)
  {
    dag := BuildDAG(false, txs);
    BuiltAccepted(dag);
    OrdersKeepConflicts(txs, Edges(dag));
    CoversIffHiddenCovered(txs, Edges(dag));
  }

  lemma BuiltAccepted(dag: seq<seq<nat>>)
    requires Down(Edges(dag)) && forall i :: 0 <= i < |dag| ==> Increasing(dag[i])
    ensures Accepted(dag)
  {
    forall i, p | 0 <= i < |dag| && 0 <= p < |dag[i]| ensures dag[i][p] < i {
      assert dag[i][p] in Edges(dag)[i];
    }
  }

  lemma CoversIffHiddenCovered(txs: seq<RwKeys>, g: Graph)
    requires Down(g) && |g| == |txs|
    requires forall i :: 0 <= i < |g| ==> Reach(g, i) == Reach(SeenGraph(txs), i)
    ensures (forall i, j :: 0 <= i < |txs| && Conflict(txs, i, j) ==> j in Reach(g, i)) <==> HiddenCovered(txs)
  {
    if HiddenCovered(txs) {
      forall i, j | 0 <= i < |txs| && Conflict(txs, i, j) ensures j in Reach(g, i) {
        ConflictReached(txs, i, j);
      }
    } else {
      var i, k, p :| 0 <= i < |txs| && Hidden(txs, i, k) && IsPrevWriter(txs, i, k, p)
                     && p !in Reach(SeenGraph(txs), i);
      CountIn(txs[i].writeKeys, k);
      assert Conflict(txs, i, p);
    }
  }

  /** The lost conflict loses an update: key `k` of contract `c` is written by both transactions, the second one also
      writes `k` of contract `d`, the graph allows the second one to run first, and then the first one's value stays. */
  lemma RepeatedWriteLosesUpdate(base: TxLog.Key -> TxLog.Value)
    ensures var txs := [RwKeys([], ["k"]), RwKeys([], ["k", "k"])];
            var first := TxLog.Entry(0, TxLog.Normal, true, [], map[], map["ck" := "old"]);
            var second := TxLog.Entry(1, TxLog.Normal, true, [], map[], map["ck" := "new", "dk" := "new"]);
            && Allowed(SeenGraph(txs), [1, 0])
            && TxLog.SerialValue(base, [first, second], "ck") == "new"
            && TxLog.SerialValue(base, [second, first], "ck") == "old"
  {
    var txs := [RwKeys([], ["k"]), RwKeys([], ["k", "k"])];
    RepeatedWriteLosesConflict();
    var g := SeenGraph(txs);
    if 0 in g[1] {
      EdgeReached(g, 1, 0);
    }
    assert g[0] == {} && g[1] == {};
    assert [1, 0][0] == 1 && [1, 0][1] == 0;
  }

  /** Something is released and not done as long as anything is not done. */
  lemma {:induction false} NextReleased(dag: seq<seq<nat>>, remain: map<nat, set<nat>>, done: set<nat>, released: set<nat>, t: nat)
      returns (i: nat)
    requires Accepted(dag) && AllWait(dag, remain, done, released) && t < |dag| && t !in done
    ensures i in released && i !in done
    decreases t
  {
    assert Waits(dag, remain, done, released, t);
    if ToSet(dag[t]) <= done {
      i := t;
    } else {
      var d :| d in dag[t] && d !in done;
      assert RowAccepted(dag[t], t);
      i := NextReleased(dag, remain, done, released, d);
    }
  }

  /** What has run so far: no transaction twice, and each after its neighbours. */
  ghost predicate RanInOrder(g: seq<seq<nat>>, order: seq<nat>) {
    && Distinct(order)
    && (forall p :: 0 <= p < |order| ==> order[p] < |g|)
    && (forall p, d :: 0 <= p < |order| && order[p] < |g| && d in g[order[p]] ==> d in order[..p])
  }

  lemma {:induction false} DistinctSize(order: seq<nat>)
    requires Distinct(order)
    ensures |ToSet(order)| == |order|
    decreases |order|
  {
    if order == [] {
    } else {
      var front, last := order[..|order| - 1], order[|order| - 1];
      DistinctSize(front);
      assert ToSet(order) == ToSet(front) + {last};
    }
  }

  lemma {:induction false} BelowSize(n: nat)
    ensures |DagOrders.Below(n)| == n
    decreases n
  {
    if n == 0 {
    } else {
      BelowSize(n - 1);
    }
  }

  /** A released transaction runs next. */
  lemma RunNext(g: seq<seq<nat>>, remain: map<nat, set<nat>>, done: set<nat>, released: set<nat>, order: seq<nat>, i: nat)
    requires AllWait(g, remain, done, released) && done == ToSet(order) && RanInOrder(g, order) && i in released && i !in done
    ensures RanInOrder(g, order + [i]) && ToSet(order + [i]) == done + {i} && |order| < |g|
  {
    var order' := order + [i];
    assert Waits(g, remain, done, released, i);
    forall p, d | 0 <= p < |order'| && order'[p] < |g| && d in g[order'[p]] ensures d in order'[..p] {
      if p == |order| {
        assert d in ToSet(g[i]) && order'[..p] == order;
      } else {
        assert order'[..p] == order[..p];
      }
    }
    DistinctSize(order');
    BelowSize(|g|);
    SubsetSize(ToSet(order'), DagOrders.Below(|g|));
  }

  lemma AllRan(g: seq<seq<nat>>, remain: map<nat, set<nat>>, done: set<nat>, released: set<nat>, order: seq<nat>)
    requires Accepted(g) && AllWait(g, remain, done, released) && done == ToSet(order) && RanInOrder(g, order)
    requires released <= done
    ensures Allowed(Edges(g), order)
  {
    forall x | 0 <= x < |g| ensures x in order {
      if x !in done {
        var i := NextReleased(g, remain, done, released, x);
        assert false;
      }
    }
  }

  /** The loop of SimulateWithDag over the two bookkeeping steps: some released transaction finishes next.  A well-formed
      graph is run to the end, every transaction once and after its neighbours. */
  method SimulateWithDag(sim: Simulation, g: seq<seq<nat>>) returns (ok: bool, order: seq<nat>)
    modifies sim
    ensures ok <==> Accepted(g)
    ensures ok ==> Allowed(Edges(g), order)
  {
    var batch;
    ok, batch := sim.InitSimulateDag(g);
    order := [];
    if !ok {
      return;
    }
    var ready := ToSet(batch);
    while ready != {}
      invariant sim.Valid() && sim.dag == g && sim.done == ToSet(order) && ready == sim.released - sim.done
      invariant sim.done <= sim.released && RanInOrder(g, order)
      decreases |g| - |order|
    {
      var i :| i in ready;
      RunNext(g, sim.remain, sim.done, sim.released, order, i);
      batch := sim.ShrinkDag(i);
      ready := ready - {i} + ToSet(batch);
      order := order + [i];
    }
    assert forall x :: x in sim.released && x !in sim.done ==> x in ready;
    AllRan(g, sim.remain, sim.done, sim.released, order);
  }
}
