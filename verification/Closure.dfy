/** Graphs whose edges go to smaller vertices, and what is reachable in them. */
module Closure {
  type Graph = seq<set<nat>>

  /** Every edge goes to a smaller vertex. */
  predicate Down(g: Graph) {
    forall i, j :: 0 <= i < |g| && j in g[i] ==> j < i
  }

  /** `i` and everything reachable from it. */
  function Reach(g: Graph, i: nat): (r: set<nat>)
    requires Down(g) && i < |g|
    ensures i in r && forall j :: j in r ==> j <= i
    decreases i
  {
    {i} + set j, x | j in g[i] && x in Reach(g, j) :: x
  }

  /** `p` walks along edges of `g`. */
  predicate Walk(g: Graph, p: seq<nat>) {
    && p != []
    && (forall q :: 0 <= q < |p| ==> p[q] < |g|)
    && (forall q :: 0 < q < |p| ==> p[q] in g[p[q - 1]])
  }

  ghost predicate Connected(g: Graph, i: nat, j: nat) {
    exists p :: Walk(g, p) && p[0] == i && p[|p| - 1] == j
  }

  lemma {:induction false} ReachHasWalk(g: Graph, i: nat, j: nat)
    requires Down(g) && i < |g| && j in Reach(g, i)
    ensures Connected(g, i, j)
    decreases i
  {
    if i == j {
      assert Walk(g, [i]);
    } else {
      var d :| d in g[i] && j in Reach(g, d);
      ReachHasWalk(g, d, j);
      var p :| Walk(g, p) && p[0] == d && p[|p| - 1] == j;
      assert Walk(g, [i] + p);
    }
  }

  lemma {:induction false} WalkIsReach(g: Graph, p: seq<nat>)
    requires Down(g) && Walk(g, p)
    ensures p[|p| - 1] in Reach(g, p[0])
    decreases |p|
  {
    if |p| == 1 {
    } else {
      assert p[1] in g[p[0]];
      WalkIsReach(g, p[1..]);
    }
  }

  /** Reach is reachability along edges. */
  lemma ReachIsConnected(g: Graph, i: nat, j: nat)
    requires Down(g) && i < |g|
    ensures j in Reach(g, i) <==> Connected(g, i, j)
  {
    if j in Reach(g, i) {
      ReachHasWalk(g, i, j);
    }
    if Connected(g, i, j) {
      var p :| Walk(g, p) && p[0] == i && p[|p| - 1] == j;
      WalkIsReach(g, p);
    }
  }

  lemma EdgeReached(g: Graph, i: nat, j: nat)
    requires Down(g) && i < |g| && j in g[i]
    ensures j in Reach(g, i)
  {
    assert j in Reach(g, j);
  }

  lemma {:induction false} ReachTransitive(g: Graph, i: nat, j: nat)
    requires Down(g) && i < |g| && j in Reach(g, i)
    ensures Reach(g, j) <= Reach(g, i)
    decreases i
  {
    if i == j {
    } else {
      var d :| d in g[i] && j in Reach(g, d);
      ReachTransitive(g, d, j);
    }
  }

  /** If every edge of `g` is a path of `h`, everything `g` reaches `h` reaches. */
  lemma {:induction false} ReachContained(g: Graph, h: Graph, i: nat)
    requires Down(g) && Down(h) && |g| == |h| && i < |g|
    requires forall a, j :: 0 <= a < |g| && j in g[a] ==> j in Reach(h, a)
    ensures Reach(g, i) <= Reach(h, i)
    decreases i
  {
    forall x | x in Reach(g, i) ensures x in Reach(h, i) {
      if x != i {
        var j :| j in g[i] && x in Reach(g, j);
        ReachContained(g, h, j);
        ReachTransitive(h, i, j);
      }
    }
  }
}
