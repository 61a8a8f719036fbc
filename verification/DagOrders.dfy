/** Execution orders that a dependency graph allows. */
module DagOrders {
  import opened Closure
  import opened ConflictGraph
  import opened BuildDag

  predicate Distinct(order: seq<nat>) {
    forall p, q :: 0 <= p < q < |order| ==> order[p] != order[q]
  }

  /** `order` runs every vertex of `g` once, each after its neighbours. */
  ghost predicate Allowed(g: Graph, order: seq<nat>) {
    && Distinct(order)
    && (forall p :: 0 <= p < |order| ==> order[p] < |g|)
    && (forall x :: 0 <= x < |g| ==> x in order)
    && (forall p, d :: 0 <= p < |order| && d in g[order[p]] ==> d in order[..p])
  }

  /** No transaction runs before an earlier one that it conflicts with. */
  ghost predicate KeepsConflicts(txs: seq<RwKeys>, order: seq<nat>) {
    forall p, q :: 0 <= p < q < |order| && order[p] < |txs| ==> !Conflict(txs, order[p], order[q])
  }

  /** Everything a vertex reaches runs before it. */
  lemma {:induction false} ReachedRunsBefore(g: Graph, order: seq<nat>, p: nat, x: nat)
    requires Down(g) && Allowed(g, order) && p < |order|
    requires order[p] < |g| && x in Reach(g, order[p])
    ensures x in order[..p + 1]
    decreases order[p]
  {
    if x == order[p] {
      assert order[..p + 1][p] == x;
    } else {
      var d :| d in g[order[p]] && x in Reach(g, d);
      var q :| 0 <= q < p && order[q] == d;
      ReachedRunsBefore(g, order, q, x);
      assert order[..q + 1] <= order[..p + 1];
    }
  }

  /** First what `i` reaches, then the rest. */
  function Hasty(g: Graph, i: nat): seq<nat>
    requires Down(g) && i < |g|
  {
    Ascending(Reach(g, i), |g|) + Ascending(Rest(g, i), |g|)
  }

  function Rest(g: Graph, i: nat): set<nat>
    requires Down(g) && i < |g|
  {
    Below(|g|) - Reach(g, i)
  }

  function Below(n: nat): (r: set<nat>)
    ensures forall x :: x in r <==> 0 <= x < n
  {
    if n == 0 then {} else Below(n - 1) + {n - 1}
  }

  /** In an increasing sequence a smaller member comes first. */
  lemma EarlierMember(s: seq<nat>, p: nat, d: nat)
    requires Increasing(s) && p < |s| && d in s && d < s[p]
    ensures d in s[..p]
  {
    var q :| 0 <= q < |s| && s[q] == d;
    assert q < p;
    assert s[..p][q] == d;
  }

  lemma HastyAllowed(g: Graph, i: nat)
    requires Down(g) && i < |g|
    ensures Allowed(g, Hasty(g, i))
  {
    var a, b, order := Ascending(Reach(g, i), |g|), Ascending(Rest(g, i), |g|), Hasty(g, i);
    AscendingIs(Reach(g, i), |g|);
    AscendingIs(Rest(g, i), |g|);
    forall p | 0 <= p < |order| ensures order[p] < |g| {
      assert order[p] in a || order[p] in b;
    }
    forall p, q | 0 <= p < q < |order| ensures order[p] != order[q] {
      if p < |a| <= q {
        assert order[p] in a && order[q] in b;
      }
    }
    forall p, d | 0 <= p < |order| && d in g[order[p]] ensures d in order[..p] {
      if p < |a| {
        assert a[p] in a;
        ReachTransitive(g, i, a[p]);
        EdgeReached(g, a[p], d);
        EarlierMember(a, p, d);
        assert order[..p] == a[..p];
      } else {
        assert order[..p] == a + b[..p - |a|];
        assert b[p - |a|] in b;
        if d !in Reach(g, i) {
          EarlierMember(b, p - |a|, d);
        }
      }
    }
  }

  /** The hidden writer runs after the transaction that does not see it. */
  lemma HastyBreaks(g: Graph, i: nat, j: nat)
    requires Down(g) && j < i < |g| && j !in Reach(g, i)
    ensures var order := Hasty(g, i); exists p, q :: 0 <= p < q < |order| && order[p] == i && order[q] == j
  {
    var a, b, order := Ascending(Reach(g, i), |g|), Ascending(Rest(g, i), |g|), Hasty(g, i);
    AscendingIs(Reach(g, i), |g|);
    AscendingIs(Rest(g, i), |g|);
    var p :| 0 <= p < |a| && a[p] == i;
    assert j in Rest(g, i);
    var q :| 0 <= q < |b| && b[q] == j;
    assert order[p] == i && order[|a| + q] == j;
  }

  /** Every order the graph allows keeps every conflict if and only if every writer hidden by a repeated write of
      the same bare key is reached some other way. */
  lemma OrdersKeepConflicts(txs: seq<RwKeys>, g: Graph)
    requires Down(g) && |g| == |txs|
    requires forall i :: 0 <= i < |g| ==> Reach(g, i) == Reach(SeenGraph(txs), i)
    ensures (forall order :: Allowed(g, order) ==> KeepsConflicts(txs, order)) <==> HiddenCovered(txs)
  {
    if HiddenCovered(txs) {
      forall order | Allowed(g, order) ensures KeepsConflicts(txs, order) {
        forall p, q | 0 <= p < q < |order| && order[p] < |txs| ensures !Conflict(txs, order[p], order[q]) {
          if Conflict(txs, order[p], order[q]) {
            ConflictReached(txs, order[p], order[q]);
            ReachedRunsBefore(g, order, p, order[q]);
            assert false;
          }
        }
      }
    } else {
      var i, k, j :| 0 <= i < |txs| && Hidden(txs, i, k) && IsPrevWriter(txs, i, k, j)
                     && j !in Reach(SeenGraph(txs), i);
      CountIn(txs[i].writeKeys, k);
      assert Conflict(txs, i, j);
      HastyAllowed(g, i);
      HastyBreaks(g, i, j);
      assert !KeepsConflicts(txs, Hasty(g, i));
    }
  }

  /** A block in which BuildDAG loses a conflict: both transactions write the same bare key, the second one twice
      (for two contracts). */
  lemma RepeatedWriteLosesConflict()
    ensures var txs := [RwKeys([], ["k"]), RwKeys([], ["k", "k"])];
            && Conflict(txs, 1, 0)
            && 0 !in Reach(SeenGraph(txs), 1)
            && !HiddenCovered(txs)
  {
    var txs := [RwKeys([], ["k"]), RwKeys([], ["k", "k"])];
    var keys: seq<Key> := ["k", "k"];
    assert "k" in txs[1].writeKeys && "k" in txs[0].writeKeys;
    assert keys[..1] == ["k"] && ["k"][..0] == [];
    assert Count(["k"], "k") == 1 && Count(keys, "k") == 2;
    assert Hidden(txs, 1, "k") && IsPrevWriter(txs, 1, "k", 0);
    assert !Sees(txs, 1, 0);
    assert SeenGraph(txs)[1] == {};
  }
}
