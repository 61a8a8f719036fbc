/** The read-write keys of a block's transactions, which of them conflict, and which conflicts BuildDAG looks at. */
module ConflictGraph {
  import opened Closure

  type Key = string

  /** The bare keys of one transaction's read set and write set, in the order of the lists. */
  datatype RwKeys = RwKeys(readKeys: seq<Key>, writeKeys: seq<Key>)

  /** How often `k` is in `keys`. */
  function Count(keys: seq<Key>, k: Key): nat {
    if keys == [] then 0
    else Count(keys[..|keys| - 1], k) + if keys[|keys| - 1] == k then 1 else 0
  }

  lemma {:induction false} CountIn(keys: seq<Key>, k: Key)
    ensures Count(keys, k) > 0 <==> k in keys
  {
    if keys == [] {
    } else {
      CountIn(keys[..|keys| - 1], k);
      assert keys == keys[..|keys| - 1] + [keys[|keys| - 1]];
    }
  }

  /** `i` written `n` times. */
  function Repeat(i: nat, n: nat): seq<nat> {
    if n == 0 then [] else Repeat(i, n - 1) + [i]
  }

  lemma {:induction false} RepeatIs(i: nat, n: nat)
    ensures |Repeat(i, n)| == n && forall q :: 0 <= q < n ==> Repeat(i, n)[q] == i
  {
    if n == 0 {
    } else {
      RepeatIs(i, n - 1);
    }
  }

  /** The transactions before `n` that read `k`, one entry for every time they list it. */
  function Readers(txs: seq<RwKeys>, n: nat, k: Key): seq<nat>
    requires n <= |txs|
  {
    if n == 0 then [] else Readers(txs, n - 1, k) + Repeat(n - 1, Count(txs[n - 1].readKeys, k))
  }

  /** The transactions before `n` that write `k`, one entry for every time they list it. */
  function Writers(txs: seq<RwKeys>, n: nat, k: Key): seq<nat>
    requires n <= |txs|
  {
    if n == 0 then [] else Writers(txs, n - 1, k) + Repeat(n - 1, Count(txs[n - 1].writeKeys, k))
  }

  lemma {:induction false} ReadersAre(txs: seq<RwKeys>, n: nat, k: Key)
    requires n <= |txs|
    ensures forall q :: 0 <= q < |Readers(txs, n, k)| ==>
              Readers(txs, n, k)[q] < n && k in txs[Readers(txs, n, k)[q]].readKeys
    ensures forall j :: 0 <= j < n && k in txs[j].readKeys ==> j in Readers(txs, n, k)
  {
    if n == 0 {
    } else {
      ReadersAre(txs, n - 1, k);
      CountIn(txs[n - 1].readKeys, k);
      RepeatIs(n - 1, Count(txs[n - 1].readKeys, k));
      if k in txs[n - 1].readKeys {
        assert Repeat(n - 1, Count(txs[n - 1].readKeys, k))[0] == n - 1;
      }
    }
  }

  /** The last entry of the writers is the previous writer. */
  lemma {:induction false} WritersAre(txs: seq<RwKeys>, n: nat, k: Key)
    requires n < |txs|
    ensures var ws := Writers(txs, n, k);
            if ws == [] then forall j :: 0 <= j < n ==> k !in txs[j].writeKeys
            else IsPrevWriter(txs, n, k, ws[|ws| - 1])
  {
    if n == 0 {
    } else {
      WritersAre(txs, n - 1, k);
      CountIn(txs[n - 1].writeKeys, k);
      RepeatIs(n - 1, Count(txs[n - 1].writeKeys, k));
      var ws := Writers(txs, n, k);
      if k in txs[n - 1].writeKeys {
        assert ws[|ws| - 1] == n - 1;
      } else {
        assert ws == Writers(txs, n - 1, k);
      }
    }
  }

  lemma {:induction false} ReadersPrefix(txs: seq<RwKeys>, m: nat, n: nat, k: Key)
    requires m <= n <= |txs|
    ensures Readers(txs, m, k) <= Readers(txs, n, k)
    decreases n
  {
    if m == n {
    } else {
      ReadersPrefix(txs, m, n - 1, k);
    }
  }

  lemma {:induction false} WritersPrefix(txs: seq<RwKeys>, m: nat, n: nat, k: Key)
    requires m <= n <= |txs|
    ensures Writers(txs, m, k) <= Writers(txs, n, k)
    decreases n
  {
    if m == n {
    } else {
      WritersPrefix(txs, m, n - 1, k);
    }
  }

  /** `p` is the last transaction before `i` that writes `k`. */
  predicate IsPrevWriter(txs: seq<RwKeys>, i: nat, k: Key, p: nat)
    requires i < |txs|
  {
    && p < i && k in txs[p].writeKeys
    && forall j :: p < j < i ==> k !in txs[j].writeKeys
  }

  /** A transaction that writes `k` more than once does not see the previous writer of `k`. */
  predicate Hidden(txs: seq<RwKeys>, i: nat, k: Key)
    requires i < |txs|
  {
    Count(txs[i].writeKeys, k) >= 2
  }

  /** BuildDAG looks from `i` at `j`. */
  predicate Sees(txs: seq<RwKeys>, i: nat, j: nat)
    requires i < |txs|
  {
    || (exists k :: k in txs[i].readKeys && !Hidden(txs, i, k) && IsPrevWriter(txs, i, k, j))
    || (exists k :: k in txs[i].writeKeys && !Hidden(txs, i, k) && IsPrevWriter(txs, i, k, j))
    || (j < i && exists k :: k in txs[i].writeKeys && k in txs[j].readKeys)
  }

  /** `j` comes before `i` and they use a common key that at least one of them writes. */
  predicate Conflict(txs: seq<RwKeys>, i: nat, j: nat)
    requires i < |txs|
  {
    && j < i
    && ((exists k :: k in txs[i].readKeys && k in txs[j].writeKeys)
        || (exists k :: k in txs[i].writeKeys && k in txs[j].readKeys)
        || (exists k :: k in txs[i].writeKeys && k in txs[j].writeKeys))
  }

  ghost function SeenGraph(txs: seq<RwKeys>): (g: Graph)
    ensures |g| == |txs| && Down(g)
    ensures forall i, j :: 0 <= i < |g| ==> (j in g[i] <==> 0 <= j < i && Sees(txs, i, j))
  {
    seq(|txs|, i requires 0 <= i < |txs| => set j | 0 <= j < i && Sees(txs, i, j))
  }

  ghost function ConflictEdges(txs: seq<RwKeys>): (g: Graph)
    ensures |g| == |txs| && Down(g)
    ensures forall i, j :: 0 <= i < |g| ==> (j in g[i] <==> 0 <= j < i && Conflict(txs, i, j))
  {
    seq(|txs|, i requires 0 <= i < |txs| => set j | 0 <= j < i && Conflict(txs, i, j))
  }

  /** Every writer hidden by a repeated write is reached through other conflicts. */
  ghost predicate HiddenCovered(txs: seq<RwKeys>) {
    forall i, k, p :: 0 <= i < |txs| && Hidden(txs, i, k) && IsPrevWriter(txs, i, k, p) ==>
      p in Reach(SeenGraph(txs), i)
  }

  /** The last writer of `k` before `i`, if any. */
  lemma PrevWriterExists(txs: seq<RwKeys>, i: nat, k: Key, j: nat) returns (p: nat)
    requires j < i < |txs| && k in txs[j].writeKeys
    ensures IsPrevWriter(txs, i, k, p) && j <= p
  {
    p := i - 1;
    while k !in txs[p].writeKeys
      invariant j <= p < i
      invariant forall q :: p < q < i ==> k !in txs[q].writeKeys
      decreases p
    {
      p := p - 1;
    }
  }

  /** Any earlier writer of a key `i` uses is reached, if hidden writers are. */
  lemma {:induction false} WritersReached(txs: seq<RwKeys>, i: nat, k: Key, j: nat)
    requires HiddenCovered(txs)
    requires j < i < |txs| && k in txs[j].writeKeys && (k in txs[i].writeKeys || k in txs[i].readKeys)
    ensures j in Reach(SeenGraph(txs), i)
    decreases i
  {
    var g := SeenGraph(txs);
    var p := PrevWriterExists(txs, i, k, j);
    if Hidden(txs, i, k) {
      assert p in Reach(g, i);
    } else {
      EdgeReached(g, i, p);
    }
    if j < p {
      WritersReached(txs, p, k, j);
      ReachTransitive(g, i, p);
    }
  }

  lemma ConflictReached(txs: seq<RwKeys>, i: nat, j: nat)
    requires HiddenCovered(txs) && i < |txs| && Conflict(txs, i, j)
    ensures j in Reach(SeenGraph(txs), i)
  {
    var g := SeenGraph(txs);
    if k :| k in txs[i].writeKeys && k in txs[j].readKeys {
      EdgeReached(g, i, j);
    } else if k :| (k in txs[i].readKeys || k in txs[i].writeKeys) && k in txs[j].writeKeys {
      WritersReached(txs, i, k, j);
    }
  }

  /** What BuildDAG looks at reaches exactly what the conflicts reach if and only if every writer hidden by a
      repeated write of the same bare key is reached some other way. */
  lemma SeenReachIsConflictReach(txs: seq<RwKeys>)
    ensures (forall i :: 0 <= i < |txs| ==> Reach(SeenGraph(txs), i) == Reach(ConflictEdges(txs), i))
       <==> HiddenCovered(txs)
  {
    var g, h := SeenGraph(txs), ConflictEdges(txs);
    forall i, j | 0 <= i < |g| && j in g[i] ensures j in Reach(h, i) {
      assert Conflict(txs, i, j);
      EdgeReached(h, i, j);
    }
    if HiddenCovered(txs) {
      forall i, j | 0 <= i < |h| && j in h[i] ensures j in Reach(g, i) {
        ConflictReached(txs, i, j);
      }
      forall i | 0 <= i < |txs| ensures Reach(g, i) == Reach(h, i) {
        ReachContained(g, h, i);
        ReachContained(h, g, i);
      }
    } else {
      var i, k, p :| 0 <= i < |txs| && Hidden(txs, i, k) && IsPrevWriter(txs, i, k, p) && p !in Reach(g, i);
      CountIn(txs[i].writeKeys, k);
      assert Conflict(txs, i, p);
      EdgeReached(h, i, p);
    }
  }

  /** In particular when no transaction writes the same bare key twice. */
  lemma NoRepeatedWrite(txs: seq<RwKeys>)
    requires forall i, k :: 0 <= i < |txs| && k in txs[i].writeKeys ==> Count(txs[i].writeKeys, k) == 1
    ensures HiddenCovered(txs)
  {
    forall i, k | 0 <= i < |txs| ensures !Hidden(txs, i, k) {
      CountIn(txs[i].writeKeys, k);
    }
  }
}
