/** SimulateWithDag's bookkeeping: which transactions may start, given which are done. */
module DagScheduler {
  import opened BuildDag

  /** The graph initSimulateDag accepts: neighbours in strictly increasing order, all smaller than the vertex. */
  predicate Accepted(dag: seq<seq<nat>>) {
    forall i :: 0 <= i < |dag| ==> RowAccepted(dag[i], i)
  }

  predicate RowAccepted(row: seq<nat>, i: nat) {
    Increasing(row) && forall p :: 0 <= p < |row| ==> row[p] < i
  }

  /** A list whose every entry exceeds the one before it is increasing. */
  lemma {:induction false} StepwiseIncreasing(row: seq<nat>, p: nat, q: nat)
    requires forall r :: 0 < r < |row| ==> row[r - 1] < row[r]
    requires p < q < |row|
    ensures row[p] < row[q]
    decreases q
  {
    if p == q - 1 {
    } else {
      StepwiseIncreasing(row, p, q - 1);
    }
  }

  /** What has become of transaction `k` while `i` is struck off the lists of those waiting for it, except `todo`. */
  predicate StruckOff(i: nat, waiting: set<nat>, todo: set<nat>, before: map<nat, set<nat>>, now: map<nat, set<nat>>,
                      batch: seq<nat>, k: nat)
  {
    && (k in batch <==> k in before && k !in now)
    && (k in now ==> k in before && now[k] == if k in waiting && k !in todo then before[k] - {i} else before[k])
    && (k in now && k in waiting && k !in todo ==> now[k] != {})
    && (k in before && k !in now ==> k in waiting && k !in todo && before[k] == {i})
  }

  ghost predicate AllStruckOff(i: nat, waiting: set<nat>, todo: set<nat>, before: map<nat, set<nat>>,
                               now: map<nat, set<nat>>, batch: seq<nat>)
  {
    forall k :: StruckOff(i, waiting, todo, before, now, batch, k)
  }

  lemma StrikeOne(i: nat, waiting: set<nat>, todo: set<nat>, before: map<nat, set<nat>>, now: map<nat, set<nat>>,
                  batch: seq<nat>, j: nat)
    requires AllStruckOff(i, waiting, todo, before, now, batch)
    requires j in todo && todo <= waiting && j in before && i in before[j]
    ensures j in now && now[j] == before[j] && j !in batch
    ensures var left := now[j] - {i};
            AllStruckOff(i, waiting, todo - {j}, before, if left == {} then now - {j} else now[j := left],
                         if left == {} then batch + [j] else batch)
  {
    assert StruckOff(i, waiting, todo, before, now, batch, j);
    var left := now[j] - {i};
    var now', batch' := if left == {} then now - {j} else now[j := left], if left == {} then batch + [j] else batch;
    var todo' := todo - {j};
    forall k ensures StruckOff(i, waiting, todo', before, now', batch', k) {
      assert StruckOff(i, waiting, todo, before, now, batch, k);
      if k == j && left == {} {
        assert batch'[|batch|] == j;
      }
    }
  }

  /** The neighbours of `k` that are not in `done`, if it waits for any. */
  predicate Waits(dag: seq<seq<nat>>, remain: map<nat, set<nat>>, done: set<nat>, released: set<nat>, k: nat) {
    && (k in released <==> k < |dag| && ToSet(dag[k]) <= done)
    && (k in remain <==> k < |dag| && k !in released)
    && (k in remain ==> remain[k] == ToSet(dag[k]) - done)
  }

  ghost predicate AllWait(dag: seq<seq<nat>>, remain: map<nat, set<nat>>, done: set<nat>, released: set<nat>) {
    forall k :: Waits(dag, remain, done, released, k)
  }

  /** Striking off the last neighbour is what releases a transaction. */
  lemma Released(dag: seq<seq<nat>>, i: nat, waiting: set<nat>, before: map<nat, set<nat>>, now: map<nat, set<nat>>,
                 batch: seq<nat>, done: set<nat>, released: set<nat>)
    requires AllStruckOff(i, waiting, {}, before, now, batch) && AllWait(dag, before, done, released)
    requires forall k :: k in waiting <==> 0 <= k < |dag| && i in dag[k]
    requires i !in done
    ensures AllWait(dag, now, done + {i}, released + ToSet(batch))
    ensures ToSet(batch) !! released
  {
    var done', released' := done + {i}, released + ToSet(batch);
    forall k ensures Waits(dag, now, done', released', k) {
      assert StruckOff(i, waiting, {}, before, now, batch, k) && Waits(dag, before, done, released, k);
      ReleasedOne(dag, i, waiting, before, now, batch, done, released, k);
    }
    forall k | k in ToSet(batch) ensures k !in released {
      assert StruckOff(i, waiting, {}, before, now, batch, k) && Waits(dag, before, done, released, k);
    }
  }

  lemma ReleasedOne(dag: seq<seq<nat>>, i: nat, waiting: set<nat>, before: map<nat, set<nat>>, now: map<nat, set<nat>>,
                    batch: seq<nat>, done: set<nat>, released: set<nat>, k: nat)
    requires StruckOff(i, waiting, {}, before, now, batch, k) && Waits(dag, before, done, released, k)
    requires k in waiting <==> k < |dag| && i in dag[k]
    requires i !in done
    ensures Waits(dag, now, done + {i}, released + ToSet(batch), k)
  {
    if k < |dag| {
      var all := ToSet(dag[k]);
      assert i in all <==> i in dag[k];
      assert all - (done + {i}) == all - done - {i};
      assert all <= done + {i} <==> all - done <= {i};
    }
  }

  /** The lists after the rows before `n`: rows without neighbours are released, the others wait. */
  ghost predicate Entered(g: seq<seq<nat>>, n: nat, batch: seq<nat>, remain: map<nat, set<nat>>, reverse: map<nat, set<nat>>)
    requires n <= |g|
  {
    && (forall i :: 0 <= i < n ==> RowAccepted(g[i], i))
    && Increasing(batch) && (forall i :: i in batch <==> 0 <= i < n && g[i] == [])
    && (forall i :: i in remain <==> 0 <= i < n && g[i] != [])
    && (forall i :: i in remain ==> remain[i] == ToSet(g[i]))
    && (forall j :: j in reverse ==> forall i :: i in reverse[j] <==> 0 <= i < n && j in g[i])
    && (forall i, j :: 0 <= i < n && j in g[i] ==> j in reverse)
  }

  lemma EnterFree(g: seq<seq<nat>>, n: nat, batch: seq<nat>, remain: map<nat, set<nat>>, reverse: map<nat, set<nat>>)
    requires n < |g| && Entered(g, n, batch, remain, reverse) && g[n] == []
    ensures Entered(g, n + 1, batch + [n], remain, reverse)
  {
    assert forall p :: 0 <= p < |batch| ==> batch[p] in batch;
  }

  /** `reverse'` is `reverse` with row `n` entered under each of its neighbours. */
  ghost predicate RowEntered(row: seq<nat>, n: nat, reverse: map<nat, set<nat>>, reverse': map<nat, set<nat>>) {
    && (forall j :: j in reverse' <==> j in reverse || j in row)
    && (forall j :: j in reverse' ==>
          reverse'[j] == (if j in reverse then reverse[j] else {}) + (if j in row then {n} else {}))
  }

  lemma EnterWaiting(g: seq<seq<nat>>, n: nat, batch: seq<nat>, remain: map<nat, set<nat>>, reverse: map<nat, set<nat>>,
                     reverse': map<nat, set<nat>>)
    requires n < |g| && Entered(g, n, batch, remain, reverse) && g[n] != [] && RowAccepted(g[n], n)
    requires RowEntered(g[n], n, reverse, reverse')
    ensures Entered(g, n + 1, batch, remain[n := ToSet(g[n])], reverse')
  {
    forall j, i | j in reverse' ensures i in reverse'[j] <==> 0 <= i < n + 1 && j in g[i] {
      if j !in reverse && 0 <= i < n {
        assert j !in g[i];
      }
    }
  }

  /** Then everybody waits for its neighbours. */
  lemma EnteredAll(g: seq<seq<nat>>, batch: seq<nat>, remain: map<nat, set<nat>>, reverse: map<nat, set<nat>>)
    requires Entered(g, |g|, batch, remain, reverse)
    ensures Accepted(g) && AllWait(g, remain, {}, ToSet(batch))
  {
    forall k: nat ensures Waits(g, remain, {}, ToSet(batch), k) {
      if k < |g| && g[k] != [] {
        assert g[k][0] in ToSet(g[k]);
      }
    }
  }

  class Simulation {
    /** The neighbours that are not done, of every transaction that may not start yet. */
    var remain: map<nat, set<nat>>
    /** The transactions waiting for a transaction that is not done. */
    var reverse: map<nat, set<nat>>
    ghost var dag: seq<seq<nat>>
    ghost var done: set<nat>
    ghost var released: set<nat>

    /** A transaction is released exactly when its neighbours are done; the others still wait for the rest. */
    ghost predicate Valid()
      reads this
    {
      && Accepted(dag)
      && AllWait(dag, remain, done, released)
      && (forall j :: j in reverse ==> j !in done && forall i :: i in reverse[j] <==> 0 <= i < |dag| && j in dag[i])
      && (forall i, j :: 0 <= i < |dag| && j in dag[i] && j !in done ==> j in reverse)
    }

    /** The check one row of the graph goes through. */
    static method CheckRow(row: seq<nat>, i: nat) returns (ok: bool)
      ensures ok <==> RowAccepted(row, i)
    {
      for p := 0 to |row|
        invariant forall r :: 0 < r < p ==> row[r - 1] < row[r]
        invariant forall r :: 0 <= r < p ==> row[r] < i
      {
        if (p > 0 && row[p - 1] >= row[p]) || row[p] >= i {
          return false;
        }
      }
      forall p, q | 0 <= p < q < |row| ensures row[p] < row[q] {
        StepwiseIncreasing(row, p, q);
      }
      return true;
    }

    /** Enters row `i` under each of its neighbours. */
    method EnterRow(row: seq<nat>, i: nat)
      modifies this`reverse
      ensures RowEntered(row, i, old(reverse), reverse)
    {
      for p := 0 to |row|
        invariant forall j :: j in reverse <==> j in old(reverse) || j in row[..p]
        invariant forall j :: j in reverse ==>
                    reverse[j] == (if j in old(reverse) then old(reverse[j]) else {}) + (if j in row[..p] then {i} else {})
      {
        var j := row[p];
        assert row[..p + 1] == row[..p] + [j];
        reverse := reverse[j := (if j in reverse then reverse[j] else {}) + {i}];
      }
      assert row[..|row|] == row;
    }

    /** initSimulateDag: refuses a malformed graph, otherwise releases the transactions without neighbours. */
    method InitSimulateDag(g: seq<seq<nat>>) returns (ok: bool, batch: seq<nat>)
      modifies this
      ensures ok <==> Accepted(g)
      ensures ok ==> Valid() && dag == g && done == {} && released == ToSet(batch) && Increasing(batch)
    {
      remain, reverse, batch := map[], map[], [];
      for i := 0 to |g|
        invariant Entered(g, i, batch, remain, reverse)
      {
        var fine := CheckRow(g[i], i);
        if !fine {
          ok := false;
          return;
        }
        ghost var before := reverse;
        if g[i] == [] {
          EnterFree(g, i, batch, remain, reverse);
          batch := batch + [i];
        } else {
          EnterRow(g[i], i);
          EnterWaiting(g, i, batch, remain, before, reverse);
          remain := remain[i := ToSet(g[i])];
        }
      }
      EnteredAll(g, batch, remain, reverse);
      ok, dag, done, released := true, g, {}, ToSet(batch);
    }

    /** shrinkDag after transaction `i`: releases exactly the transactions whose last unfinished neighbour it was. */
    method ShrinkDag(i: nat) returns (batch: seq<nat>)
      requires Valid() && i in released && i !in done
      modifies this
      ensures Valid() && dag == old(dag) && done == old(done) + {i}
      ensures released == old(released) + ToSet(batch) && ToSet(batch) !! old(released)
      ensures forall p, q :: 0 <= p < q < |batch| ==> batch[p] != batch[q]
    {
      batch := [];
      ghost var before := remain;
      var waiting := if i in reverse then reverse[i] else {};
      var todo := waiting;
      while todo != {}
        invariant todo <= waiting
        invariant AllStruckOff(i, waiting, todo, before, remain, batch)
        invariant forall p, q :: 0 <= p < q < |batch| ==> batch[p] != batch[q]
        modifies this`remain
        decreases todo
      {
        var k :| k in todo;
        assert Waits(dag, before, done, released, k);
        StrikeOne(i, waiting, todo, before, remain, batch, k);
        todo := todo - {k};
        var left := remain[k] - {i};
        if left == {} {
          batch := batch + [k];
          remain := remain - {k};
        } else {
          remain := remain[k := left];
        }
      }
      Released(dag, i, waiting, before, remain, batch, done, released);
      reverse := reverse - {i};
      done := done + {i};
      released := released + ToSet(batch);
    }
  }
}
