/** BuildDAG: key dictionaries and positions, reach sets, and the pruned dependency graph. */
module BuildDag {
  import opened Closure
  import opened ConflictGraph

  type Dict = map<Key, seq<nat>>
  type Positions = map<nat, map<Key, nat>>

  function At(d: Dict, k: Key): seq<nat> {
    if k in d then d[k] else []
  }

  /** The position the code keeps for transaction `i` in the readers of `k`. */
  function ReadPos(txs: seq<RwKeys>, i: nat, k: Key): nat
    requires i < |txs|
  {
    var n := Count(txs[i].readKeys, k);
    |Readers(txs, i, k)| + if n == 0 then 0 else n - 1
  }

  /** The position the code keeps for transaction `i` in the writers of `k`. */
  function WritePos(txs: seq<RwKeys>, i: nat, k: Key): nat
    requires i < |txs|
  {
    var n := Count(txs[i].writeKeys, k);
    |Writers(txs, i, k)| + if n == 0 then 0 else n - 1
  }

  ghost predicate ReadDictOk(txs: seq<RwKeys>, n: nat, d: Dict)
    requires n <= |txs|
  {
    forall k :: At(d, k) == Readers(txs, n, k)
  }

  ghost predicate WriteDictOk(txs: seq<RwKeys>, n: nat, d: Dict)
    requires n <= |txs|
  {
    forall k :: At(d, k) == Writers(txs, n, k)
  }

  predicate Uses(tx: RwKeys, k: Key) {
    k in tx.readKeys || k in tx.writeKeys
  }

  /** The positions `ri` and `wi` kept for transaction `i` are right for `k`. */
  predicate PlaceOk(txs: seq<RwKeys>, i: nat, ri: map<Key, nat>, wi: map<Key, nat>, k: Key)
    requires i < |txs|
  {
    Uses(txs[i], k) ==> k in ri && ri[k] == ReadPos(txs, i, k) && k in wi && wi[k] == WritePos(txs, i, k)
  }

  ghost predicate PositionsOk(txs: seq<RwKeys>, n: nat, readPos: Positions, writePos: Positions)
    requires n <= |txs|
  {
    forall i :: 0 <= i < n ==>
      i in readPos && i in writePos && forall k :: PlaceOk(txs, i, readPos[i], writePos[i], k)
  }

  lemma OneMoreKey(keys: seq<Key>, p: nat, k: Key)
    requires p < |keys|
    ensures Count(keys[..p + 1], k) == Count(keys[..p], k) + if k == keys[p] then 1 else 0
    ensures k in keys[..p + 1] <==> k in keys[..p] || k == keys[p]
  {
    assert keys[..p + 1] == keys[..p] + [keys[p]];
    assert keys[..p + 1][..p] == keys[..p];
  }

  /** What the dictionary and the positions hold for `k` once transaction `i` has listed the reads `keys`. */
  predicate ReadDone(txs: seq<RwKeys>, i: nat, keys: seq<Key>, dict: Dict, ri: map<Key, nat>, wi: map<Key, nat>, k: Key)
    requires i < |txs|
  {
    && At(dict, k) == Readers(txs, i, k) + Repeat(i, Count(keys, k))
    && (k in ri <==> k in keys)
    && (k in keys ==> k in wi && ri[k] == |Readers(txs, i, k)| + Count(keys, k) - 1 && wi[k] == |Writers(txs, i, k)|)
  }

  /** The same once it has listed all its reads and the writes `keys`. */
  predicate WriteDone(txs: seq<RwKeys>, i: nat, keys: seq<Key>, dict: Dict, ri: map<Key, nat>, wi: map<Key, nat>, k: Key)
    requires i < |txs|
  {
    && At(dict, k) == Writers(txs, i, k) + Repeat(i, Count(keys, k))
    && (k in ri <==> k in txs[i].readKeys || k in keys)
    && (k in ri ==>
          && ri[k] == ReadPos(txs, i, k)
          && k in wi && wi[k] == |Writers(txs, i, k)| + if k in keys then Count(keys, k) - 1 else 0)
  }

  ghost predicate ReadsDone(txs: seq<RwKeys>, i: nat, keys: seq<Key>, dict: Dict, ri: map<Key, nat>, wi: map<Key, nat>)
    requires i < |txs|
  {
    forall k :: ReadDone(txs, i, keys, dict, ri, wi, k)
  }

  ghost predicate WritesDone(txs: seq<RwKeys>, i: nat, keys: seq<Key>, dict: Dict, ri: map<Key, nat>, wi: map<Key, nat>)
    requires i < |txs|
  {
    forall k :: WriteDone(txs, i, keys, dict, ri, wi, k)
  }

  lemma ReadStep(txs: seq<RwKeys>, i: nat, p: nat, dict: Dict, ri: map<Key, nat>, wi: map<Key, nat>, k: Key)
    requires i < |txs| && p < |txs[i].readKeys| && ReadDone(txs, i, txs[i].readKeys[..p], dict, ri, wi, k)
    ensures var key := txs[i].readKeys[p];
            var n := |At(dict, key)|;
            ReadDone(txs, i, txs[i].readKeys[..p + 1], dict[key := At(dict, key) + [i]], ri[key := n],
                     wi[key := |Writers(txs, i, key)|], k)
  {
    var key := txs[i].readKeys[p];
    OneMoreKey(txs[i].readKeys, p, k);
    if k == key {
      RepeatIs(i, Count(txs[i].readKeys[..p], k));
    }
  }

  lemma ReadSteps(txs: seq<RwKeys>, i: nat, p: nat, dict: Dict, ri: map<Key, nat>, wi: map<Key, nat>)
    requires i < |txs| && p < |txs[i].readKeys|
    requires ReadsDone(txs, i, txs[i].readKeys[..p], dict, ri, wi)
    ensures var key := txs[i].readKeys[p];
            ReadsDone(txs, i, txs[i].readKeys[..p + 1], dict[key := At(dict, key) + [i]],
                      ri[key := |At(dict, key)|], wi[key := |Writers(txs, i, key)|])
  {
    var key, keys' := txs[i].readKeys[p], txs[i].readKeys[..p + 1];
    var dict', ri', wi' := dict[key := At(dict, key) + [i]], ri[key := |At(dict, key)|], wi[key := |Writers(txs, i, key)|];
    forall k ensures ReadDone(txs, i, keys', dict', ri', wi', k) {
      ReadStep(txs, i, p, dict, ri, wi, k);
    }
  }

  /** Another key's write changes nothing for `k`. */
  lemma WriteStepOther(txs: seq<RwKeys>, i: nat, p: nat, dict: Dict, ri: map<Key, nat>, wi: map<Key, nat>, k: Key)
    requires i < |txs| && p < |txs[i].writeKeys| && WriteDone(txs, i, txs[i].writeKeys[..p], dict, ri, wi, k)
    requires k != txs[i].writeKeys[p]
    ensures var key := txs[i].writeKeys[p];
            WriteDone(txs, i, txs[i].writeKeys[..p + 1], dict[key := At(dict, key) + [i]],
                      if key in ri then ri else ri[key := |Readers(txs, i, key)|], wi[key := |At(dict, key)|], k)
  {
    OneMoreKey(txs[i].writeKeys, p, k);
  }

  lemma WriteStepSame(txs: seq<RwKeys>, i: nat, p: nat, dict: Dict, ri: map<Key, nat>, wi: map<Key, nat>)
    requires i < |txs| && p < |txs[i].writeKeys|
    requires WriteDone(txs, i, txs[i].writeKeys[..p], dict, ri, wi, txs[i].writeKeys[p])
    ensures var key := txs[i].writeKeys[p];
            WriteDone(txs, i, txs[i].writeKeys[..p + 1], dict[key := At(dict, key) + [i]],
                      if key in ri then ri else ri[key := |Readers(txs, i, key)|], wi[key := |At(dict, key)|], key)
  {
    var key := txs[i].writeKeys[p];
    OneMoreKey(txs[i].writeKeys, p, key);
    RepeatIs(i, Count(txs[i].writeKeys[..p], key));
    CountIn(txs[i].readKeys, key);
  }

  lemma WriteStep(txs: seq<RwKeys>, i: nat, p: nat, dict: Dict, ri: map<Key, nat>, wi: map<Key, nat>, k: Key)
    requires i < |txs| && p < |txs[i].writeKeys| && WriteDone(txs, i, txs[i].writeKeys[..p], dict, ri, wi, k)
    ensures var key := txs[i].writeKeys[p];
            WriteDone(txs, i, txs[i].writeKeys[..p + 1], dict[key := At(dict, key) + [i]],
                      if key in ri then ri else ri[key := |Readers(txs, i, key)|], wi[key := |At(dict, key)|], k)
  {
    if k == txs[i].writeKeys[p] {
      WriteStepSame(txs, i, p, dict, ri, wi);
    } else {
      WriteStepOther(txs, i, p, dict, ri, wi, k);
    }
  }

  /** A transaction that does not read `k` adds no reader of it. */
  lemma ReadersStop(txs: seq<RwKeys>, i: nat, k: Key)
    requires i < |txs| && k !in txs[i].readKeys
    ensures Readers(txs, i + 1, k) == Readers(txs, i, k)
  {
    CountIn(txs[i].readKeys, k);
  }

  /** Between the two loops. */
  lemma ReadsToWrites(txs: seq<RwKeys>, i: nat, rd: Dict, wd: Dict, ri: map<Key, nat>, wi: map<Key, nat>, k: Key)
    requires i < |txs| && ReadDone(txs, i, txs[i].readKeys, rd, ri, wi, k)
    requires At(wd, k) == Writers(txs, i, k)
    ensures WriteDone(txs, i, [], wd, ri, wi, k)
    ensures At(rd, k) == Readers(txs, i + 1, k)
  {
    CountIn(txs[i].readKeys, k);
  }

  lemma TxDone(txs: seq<RwKeys>, i: nat, wd: Dict, ri: map<Key, nat>, wi: map<Key, nat>, k: Key)
    requires i < |txs| && WriteDone(txs, i, txs[i].writeKeys, wd, ri, wi, k)
    ensures PlaceOk(txs, i, ri, wi, k)
    ensures At(wd, k) == Writers(txs, i + 1, k)
  {
    CountIn(txs[i].writeKeys, k);
  }

  method RecordReads(txs: seq<RwKeys>, i: nat, dict: Dict, writeDict: Dict)
    returns (readDict: Dict, ri: map<Key, nat>, wi: map<Key, nat>)
    requires i < |txs|
    requires ReadDictOk(txs, i, dict)
    requires WriteDictOk(txs, i, writeDict)
    ensures ReadsDone(txs, i, txs[i].readKeys, readDict, ri, wi)
  {
    var readKeys := txs[i].readKeys;
    readDict, ri, wi := dict, map[], map[];
    for p := 0 to |readKeys|
      invariant ReadsDone(txs, i, readKeys[..p], readDict, ri, wi)
    {
      var key := readKeys[p];
      ReadSteps(txs, i, p, readDict, ri, wi);
      assert At(writeDict, key) == Writers(txs, i, key);
      ri := ri[key := |At(readDict, key)|];
      wi := wi[key := |At(writeDict, key)|];
      readDict := readDict[key := At(readDict, key) + [i]];
    }
    assert readKeys[..|readKeys|] == readKeys;
  }

  method RecordWrites(txs: seq<RwKeys>, i: nat, readDict: Dict, dict: Dict, ri0: map<Key, nat>, wi0: map<Key, nat>)
    returns (writeDict: Dict, ri: map<Key, nat>, wi: map<Key, nat>)
    requires i < |txs|
    requires ReadDictOk(txs, i + 1, readDict)
    requires WritesDone(txs, i, [], dict, ri0, wi0)
    ensures WritesDone(txs, i, txs[i].writeKeys, writeDict, ri, wi)
  {
    var writeKeys := txs[i].writeKeys;
    writeDict, ri, wi := dict, ri0, wi0;
    for p := 0 to |writeKeys|
      invariant WritesDone(txs, i, writeKeys[..p], writeDict, ri, wi)
    {
      var key := writeKeys[p];
      var ri', wi' := ri, wi[key := |At(writeDict, key)|];
      assert WriteDone(txs, i, writeKeys[..p], writeDict, ri, wi, key);
      if key !in ri {
        ReadersStop(txs, i, key);
        ri' := ri[key := |At(readDict, key)|];
      }
      var writeDict' := writeDict[key := At(writeDict, key) + [i]];
      ghost var keys' := writeKeys[..p + 1];
      forall k ensures WriteDone(txs, i, keys', writeDict', ri', wi', k) {
        WriteStep(txs, i, p, writeDict, ri, wi, k);
      }
      writeDict, ri, wi := writeDict', ri', wi';
    }
    assert writeKeys[..|writeKeys|] == writeKeys;
  }

  /** All reads of transaction `i` are listed. */
  lemma ReadsListed(txs: seq<RwKeys>, i: nat, rd: Dict, wd: Dict, ri: map<Key, nat>, wi: map<Key, nat>)
    requires i < |txs| && WriteDictOk(txs, i, wd)
    requires ReadsDone(txs, i, txs[i].readKeys, rd, ri, wi)
    ensures ReadDictOk(txs, i + 1, rd)
    ensures WritesDone(txs, i, [], wd, ri, wi)
  {
    ghost var n := i + 1;
    forall k ensures At(rd, k) == Readers(txs, n, k) {
      ReadsToWrites(txs, i, rd, wd, ri, wi, k);
    }
    forall k ensures WriteDone(txs, i, [], wd, ri, wi, k) {
      ReadsToWrites(txs, i, rd, wd, ri, wi, k);
    }
  }

  /** All writes of transaction `i` are listed. */
  lemma WritesListed(txs: seq<RwKeys>, i: nat, wd: Dict, ri: map<Key, nat>, wi: map<Key, nat>)
    requires i < |txs|
    requires WritesDone(txs, i, txs[i].writeKeys, wd, ri, wi)
    ensures WriteDictOk(txs, i + 1, wd)
    ensures forall k :: PlaceOk(txs, i, ri, wi, k)
  {
    ghost var n := i + 1;
    forall k ensures At(wd, k) == Writers(txs, n, k) {
      TxDone(txs, i, wd, ri, wi, k);
    }
    forall k ensures PlaceOk(txs, i, ri, wi, k) {
      TxDone(txs, i, wd, ri, wi, k);
    }
  }

  lemma OneMorePlace(txs: seq<RwKeys>, i: nat, ri: map<Key, nat>, wi: map<Key, nat>, readPos: Positions, writePos: Positions)
    requires i < |txs| && PositionsOk(txs, i, readPos, writePos)
    requires forall k :: PlaceOk(txs, i, ri, wi, k)
    ensures PositionsOk(txs, i + 1, readPos[i := ri], writePos[i := wi])
  {
  }

  /** The readers and writers of every key, and every transaction's place among them. */
  method BuildDictAndPos(txs: seq<RwKeys>)
    returns (readDict: Dict, writeDict: Dict, readPos: Positions, writePos: Positions)
    ensures ReadDictOk(txs, |txs|, readDict)
    ensures WriteDictOk(txs, |txs|, writeDict)
    ensures PositionsOk(txs, |txs|, readPos, writePos)
  {
    readDict, writeDict, readPos, writePos := map[], map[], map[], map[];
    for i := 0 to |txs|
      invariant ReadDictOk(txs, i, readDict)
      invariant WriteDictOk(txs, i, writeDict)
      invariant PositionsOk(txs, i, readPos, writePos)
    {
      var ri, wi;
      readDict, ri, wi := RecordReads(txs, i, readDict, writeDict);
      ReadsListed(txs, i, readDict, writeDict, ri, wi);
      writeDict, ri, wi := RecordWrites(txs, i, readDict, writeDict, ri, wi);
      WritesListed(txs, i, writeDict, ri, wi);
      OneMorePlace(txs, i, ri, wi, readPos, writePos);
      readPos, writePos := readPos[i := ri], writePos[i := wi];
    }
  }

  /** The writer entry just before a transaction's own place: the previous writer, or the transaction itself if it
      writes the key more than once. */
  lemma WriterTarget(txs: seq<RwKeys>, i: nat, k: Key)
    requires i < |txs|
    ensures var ws, j := Writers(txs, |txs|, k), WritePos(txs, i, k) - 1;
            && j < |ws|
            && (j >= 0 && Hidden(txs, i, k) ==> ws[j] == i)
            && (j >= 0 && !Hidden(txs, i, k) ==> IsPrevWriter(txs, i, k, ws[j]))
            && (j < 0 ==> forall p :: 0 <= p < i ==> k !in txs[p].writeKeys)
  {
    WritersPrefix(txs, i + 1, |txs|, k);
    WritersAre(txs, i, k);
    RepeatIs(i, Count(txs[i].writeKeys, k));
  }

  /** The reader entries before a transaction's own place: the earlier readers, all of them, and maybe itself. */
  lemma ReaderTargets(txs: seq<RwKeys>, i: nat, k: Key)
    requires i < |txs|
    ensures var rs, n := Readers(txs, |txs|, k), ReadPos(txs, i, k);
            && n <= |rs|
            && (forall q :: 0 <= q < n ==> rs[q] == i || (rs[q] < i && k in txs[rs[q]].readKeys))
            && (forall r :: 0 <= r < i && k in txs[r].readKeys ==> r in rs[..n])
  {
    ReadersPrefix(txs, i + 1, |txs|, k);
    ReadersAre(txs, i, k);
    RepeatIs(i, Count(txs[i].readKeys, k));
    assert Readers(txs, i, k) <= Readers(txs, |txs|, k)[..ReadPos(txs, i, k)];
  }

  /** `all` is what the edges `direct`, all of them seen conflicts of `i`, reach. */
  ghost predicate Pruned(g: Graph, i: nat, direct: set<nat>, all: set<nat>)
    requires Down(g) && i < |g|
  {
    && direct <= g[i]
    && all == {i} + set d, x | d in direct && x in Reach(g, d) :: x
  }

  /** Following one more seen conflict, unless it is already reached. */
  method Follow(ghost g: Graph, i: nat, t: nat, direct: set<nat>, all: set<nat>, reachMap: seq<set<nat>>)
    returns (direct': set<nat>, all': set<nat>)
    requires Down(g) && i < |g| && Pruned(g, i, direct, all)
    requires |reachMap| == i && forall j :: 0 <= j < i ==> reachMap[j] == Reach(g, j)
    requires t == i || t in g[i]
    ensures Pruned(g, i, direct', all') && all <= all' && t in all'
  {
    direct', all' := direct, all;
    if t !in all {
      direct', all' := direct + {t}, all + reachMap[t];
    }
  }

  /** Once every seen conflict is reached, everything the seen conflicts reach is. */
  lemma PrunedComplete(g: Graph, i: nat, direct: set<nat>, all: set<nat>)
    requires Down(g) && i < |g| && Pruned(g, i, direct, all) && g[i] <= all
    ensures all == Reach(g, i)
  {
    forall t, x | t in g[i] && x in Reach(g, t) ensures x in all {
      var d :| d in direct && t in Reach(g, d);
      ReachTransitive(g, d, t);
    }
  }

  /** The previous writer of `k`, if `i` sees it, is reached. */
  predicate WriterReached(txs: seq<RwKeys>, i: nat, k: Key, all: set<nat>)
    requires i < |txs|
  {
    forall j :: 0 <= j < i && IsPrevWriter(txs, i, k, j) && !Hidden(txs, i, k) ==> j in all
  }

  /** The earlier readers of `k` are reached. */
  predicate ReadersReached(txs: seq<RwKeys>, i: nat, k: Key, all: set<nat>)
    requires i < |txs|
  {
    forall j :: 0 <= j < i && k in txs[j].readKeys ==> j in all
  }

  predicate ReadKeysReached(txs: seq<RwKeys>, i: nat, p: nat, all: set<nat>)
    requires i < |txs| && p <= |txs[i].readKeys|
  {
    forall q :: 0 <= q < p ==> WriterReached(txs, i, txs[i].readKeys[q], all)
  }

  predicate WriteKeysReached(txs: seq<RwKeys>, i: nat, p: nat, all: set<nat>)
    requires i < |txs| && p <= |txs[i].writeKeys|
  {
    forall q :: 0 <= q < p ==>
      ReadersReached(txs, i, txs[i].writeKeys[q], all) && WriterReached(txs, i, txs[i].writeKeys[q], all)
  }

  lemma ReachedGrows(txs: seq<RwKeys>, i: nat, p: nat, p': nat, all: set<nat>, all': set<nat>)
    requires i < |txs| && p <= |txs[i].readKeys| && p' <= |txs[i].writeKeys| && all <= all'
    ensures ReadKeysReached(txs, i, p, all) ==> ReadKeysReached(txs, i, p, all')
    ensures WriteKeysReached(txs, i, p', all) ==> WriteKeysReached(txs, i, p', all')
  {
    forall k ensures WriterReached(txs, i, k, all) ==> WriterReached(txs, i, k, all')
             ensures ReadersReached(txs, i, k, all) ==> ReadersReached(txs, i, k, all') {}
  }

  lemma AllSeenReached(txs: seq<RwKeys>, i: nat, all: set<nat>)
    requires i < |txs|
    requires ReadKeysReached(txs, i, |txs[i].readKeys|, all) && WriteKeysReached(txs, i, |txs[i].writeKeys|, all)
    ensures SeenGraph(txs)[i] <= all
  {
    forall j | j in SeenGraph(txs)[i] ensures j in all {
      if k :| k in txs[i].readKeys && !Hidden(txs, i, k) && IsPrevWriter(txs, i, k, j) {
        var q :| 0 <= q < |txs[i].readKeys| && txs[i].readKeys[q] == k;
        assert WriterReached(txs, i, k, all);
      } else if k :| k in txs[i].writeKeys
                     && ((!Hidden(txs, i, k) && IsPrevWriter(txs, i, k, j)) || k in txs[j].readKeys) {
        var q :| 0 <= q < |txs[i].writeKeys| && txs[i].writeKeys[q] == k;
        assert ReadersReached(txs, i, k, all) && WriterReached(txs, i, k, all);
      }
    }
  }

  /** The entries of `rs` before place `n`, latest first. */
  method FollowAll(ghost g: Graph, i: nat, rs: seq<nat>, n: nat, direct0: set<nat>, all0: set<nat>,
                   reachMap: seq<set<nat>>)
    returns (direct: set<nat>, all: set<nat>)
    requires Down(g) && i < |g| && Pruned(g, i, direct0, all0)
    requires n <= |rs| && forall q :: 0 <= q < n ==> rs[q] == i || rs[q] in g[i]
    requires |reachMap| == i && forall j :: 0 <= j < i ==> reachMap[j] == Reach(g, j)
    ensures Pruned(g, i, direct, all) && all0 <= all
    ensures forall q :: 0 <= q < n ==> rs[q] in all
  {
    direct, all := direct0, all0;
    var j: int := n - 1;
    while j >= 0
      invariant -1 <= j < n
      invariant Pruned(g, i, direct, all) && all0 <= all
      invariant forall q :: j < q < n ==> rs[q] in all
      decreases j
    {
      direct, all := Follow(g, i, rs[j], direct, all, reachMap);
      j := j - 1;
    }
  }

  ghost predicate Inputs(txs: seq<RwKeys>, i: nat, readDict: Dict, writeDict: Dict, readPos: Positions,
                         writePos: Positions, reachMap: seq<set<nat>>)
  {
    && i < |txs| && ReadDictOk(txs, |txs|, readDict) && WriteDictOk(txs, |txs|, writeDict)
    && PositionsOk(txs, |txs|, readPos, writePos)
    && |reachMap| == i && forall j :: 0 <= j < i ==> reachMap[j] == Reach(SeenGraph(txs), j)
  }

  /** What the dictionaries and positions say about one key of `i`. */
  lemma InputsFor(txs: seq<RwKeys>, i: nat, readDict: Dict, writeDict: Dict,
                  readPos: Positions, writePos: Positions, reachMap: seq<set<nat>>, k: Key)
    requires Inputs(txs, i, readDict, writeDict, readPos, writePos, reachMap) && Uses(txs[i], k)
    ensures i in readPos && k in readPos[i] && readPos[i][k] == ReadPos(txs, i, k)
    ensures i in writePos && k in writePos[i] && writePos[i][k] == WritePos(txs, i, k)
    ensures At(readDict, k) == Readers(txs, |txs|, k) && At(writeDict, k) == Writers(txs, |txs|, k)
  {
    assert PlaceOk(txs, i, readPos[i], writePos[i], k);
  }

  /** The entry before `i`'s own place among the writers of one of its keys. */
  method FollowWriter(txs: seq<RwKeys>, i: nat, k: Key, readDict: Dict, writeDict: Dict, readPos: Positions,
                      writePos: Positions, reachMap: seq<set<nat>>, direct0: set<nat>, all0: set<nat>)
    returns (direct: set<nat>, all: set<nat>)
    requires Inputs(txs, i, readDict, writeDict, readPos, writePos, reachMap) && Uses(txs[i], k)
    requires Pruned(SeenGraph(txs), i, direct0, all0)
    ensures Pruned(SeenGraph(txs), i, direct, all) && all0 <= all
    ensures WriterReached(txs, i, k, all)
  {
    InputsFor(txs, i, readDict, writeDict, readPos, writePos, reachMap, k);
    WriterTarget(txs, i, k);
    var ws, place := At(writeDict, k), writePos[i][k];
    direct, all := direct0, all0;
    if place > 0 {
      assert ws[place - 1] == i || Sees(txs, i, ws[place - 1]);
      direct, all := Follow(SeenGraph(txs), i, ws[place - 1], direct, all, reachMap);
    }
  }

  /** The earlier readers of one of the keys `i` writes. */
  method FollowReaders(txs: seq<RwKeys>, i: nat, k: Key, readDict: Dict, writeDict: Dict, readPos: Positions,
                       writePos: Positions, reachMap: seq<set<nat>>, direct0: set<nat>, all0: set<nat>)
    returns (direct: set<nat>, all: set<nat>)
    requires Inputs(txs, i, readDict, writeDict, readPos, writePos, reachMap) && k in txs[i].writeKeys
    requires Pruned(SeenGraph(txs), i, direct0, all0)
    ensures Pruned(SeenGraph(txs), i, direct, all) && all0 <= all
    ensures ReadersReached(txs, i, k, all)
  {
    InputsFor(txs, i, readDict, writeDict, readPos, writePos, reachMap, k);
    ReaderTargets(txs, i, k);
    direct, all := FollowAll(SeenGraph(txs), i, At(readDict, k), readPos[i][k], direct0, all0, reachMap);
  }

  method FollowReads(txs: seq<RwKeys>, i: nat, readDict: Dict, writeDict: Dict, readPos: Positions,
                     writePos: Positions, reachMap: seq<set<nat>>, direct0: set<nat>, all0: set<nat>)
    returns (direct: set<nat>, all: set<nat>)
    requires Inputs(txs, i, readDict, writeDict, readPos, writePos, reachMap)
    requires Pruned(SeenGraph(txs), i, direct0, all0)
    ensures Pruned(SeenGraph(txs), i, direct, all)
    ensures ReadKeysReached(txs, i, |txs[i].readKeys|, all)
  {
    direct, all := direct0, all0;
    for p := 0 to |txs[i].readKeys|
      invariant Pruned(SeenGraph(txs), i, direct, all)
      invariant ReadKeysReached(txs, i, p, all)
    {
      ghost var before := all;
      var k := txs[i].readKeys[p];
      direct, all := FollowWriter(txs, i, k, readDict, writeDict, readPos, writePos, reachMap, direct, all);
      ReachedGrows(txs, i, p, 0, before, all);
    }
  }

  method FollowWrites(txs: seq<RwKeys>, i: nat, readDict: Dict, writeDict: Dict, readPos: Positions,
                      writePos: Positions, reachMap: seq<set<nat>>, direct0: set<nat>, all0: set<nat>)
    returns (direct: set<nat>, all: set<nat>)
    requires Inputs(txs, i, readDict, writeDict, readPos, writePos, reachMap)
    requires Pruned(SeenGraph(txs), i, direct0, all0)
    ensures Pruned(SeenGraph(txs), i, direct, all) && all0 <= all
    ensures WriteKeysReached(txs, i, |txs[i].writeKeys|, all)
  {
    direct, all := direct0, all0;
    for p := 0 to |txs[i].writeKeys|
      invariant Pruned(SeenGraph(txs), i, direct, all) && all0 <= all
      invariant WriteKeysReached(txs, i, p, all)
    {
      ghost var before := all;
      var k := txs[i].writeKeys[p];
      direct, all := FollowReaders(txs, i, k, readDict, writeDict, readPos, writePos, reachMap, direct, all);
      ghost var between := all;
      direct, all := FollowWriter(txs, i, k, readDict, writeDict, readPos, writePos, reachMap, direct, all);
      ReachedGrows(txs, i, 0, p, before, all);
      assert ReadersReached(txs, i, k, between) ==> ReadersReached(txs, i, k, all);
    }
  }

  /** The pruned edges of transaction `i` and everything it reaches. */
  method BuildReachMap(txs: seq<RwKeys>, i: nat, readDict: Dict, writeDict: Dict,
                       readPos: Positions, writePos: Positions, reachMap: seq<set<nat>>)
    returns (direct: set<nat>, all: set<nat>)
    requires Inputs(txs, i, readDict, writeDict, readPos, writePos, reachMap)
    ensures all == Reach(SeenGraph(txs), i)
    ensures Pruned(SeenGraph(txs), i, direct, all)
  {
    direct, all := FollowReads(txs, i, readDict, writeDict, readPos, writePos, reachMap, {}, {i});
    ghost var before := all;
    direct, all := FollowWrites(txs, i, readDict, writeDict, readPos, writePos, reachMap, direct, all);
    ReachedGrows(txs, i, |txs[i].readKeys|, 0, before, all);
    AllSeenReached(txs, i, all);
    PrunedComplete(SeenGraph(txs), i, direct, all);
  }

  /** The members of `s` below `n`, smallest first. */
  function Ascending(s: set<nat>, n: nat): seq<nat> {
    if n == 0 then [] else Ascending(s, n - 1) + if n - 1 in s then [n - 1] else []
  }

  lemma {:induction false} AscendingIs(s: set<nat>, n: nat)
    ensures forall x :: x in Ascending(s, n) <==> x in s && x < n
    ensures Increasing(Ascending(s, n))
  {
    if n == 0 {
    } else {
      AscendingIs(s, n - 1);
      var front := Ascending(s, n - 1);
      assert forall p :: 0 <= p < |front| ==> front[p] in front;
    }
  }

  predicate Increasing(s: seq<nat>) {
    forall p, q :: 0 <= p < q < |s| ==> s[p] < s[q]
  }

  function ToSet(s: seq<nat>): set<nat> {
    set j | j in s
  }

  /** The neighbours of every vertex as sets. */
  function Edges(dag: seq<seq<nat>>): (g: Graph)
    ensures |g| == |dag|
    ensures forall i :: 0 <= i < |dag| ==> g[i] == ToSet(dag[i])
  {
    seq(|dag|, i requires 0 <= i < |dag| => ToSet(dag[i]))
  }

  /** Vertex `i` lists its pruned edges in order, and they reach what its seen conflicts reach. */
  ghost predicate VertexOk(txs: seq<RwKeys>, i: nat, neighbours: seq<nat>, all: set<nat>)
    requires i < |txs|
  {
    && Increasing(neighbours)
    && all == Reach(SeenGraph(txs), i)
    && Pruned(SeenGraph(txs), i, ToSet(neighbours), all)
  }

  /** The vertices built so far. */
  ghost predicate DagOk(txs: seq<RwKeys>, dag: seq<seq<nat>>, reachMap: seq<set<nat>>) {
    |reachMap| == |dag| <= |txs| && forall i :: 0 <= i < |dag| ==> VertexOk(txs, i, dag[i], reachMap[i])
  }

  lemma DagDown(txs: seq<RwKeys>, dag: seq<seq<nat>>, reachMap: seq<set<nat>>)
    requires DagOk(txs, dag, reachMap)
    ensures Down(Edges(dag))
    ensures forall i, j :: 0 <= i < |dag| && j in dag[i] ==> j < i && Sees(txs, i, j)
  {
    forall i, j | 0 <= i < |dag| && j in dag[i] ensures j < i && Sees(txs, i, j) {
      assert VertexOk(txs, i, dag[i], reachMap[i]);
      assert j in SeenGraph(txs)[i];
    }
  }

  /** The seen conflicts, the edges and the reach sets have the same closure. */
  lemma {:induction false} DagReach(txs: seq<RwKeys>, dag: seq<seq<nat>>, reachMap: seq<set<nat>>, i: nat)
    requires DagOk(txs, dag, reachMap) && |dag| == |txs| && i < |txs|
    requires Down(Edges(dag))
    ensures Reach(Edges(dag), i) == Reach(SeenGraph(txs), i)
    decreases i
  {
    var e, g := Edges(dag), SeenGraph(txs);
    assert VertexOk(txs, i, dag[i], reachMap[i]);
    forall d | d in e[i] ensures Reach(e, d) == Reach(g, d) {
      DagReach(txs, dag, reachMap, d);
    }
  }

  lemma DagReachAll(txs: seq<RwKeys>, dag: seq<seq<nat>>, reachMap: seq<set<nat>>)
    requires DagOk(txs, dag, reachMap) && |dag| == |txs| && Down(Edges(dag))
    ensures forall i :: 0 <= i < |txs| ==> reachMap[i] == Reach(Edges(dag), i) == Reach(SeenGraph(txs), i)
  {
    forall i | 0 <= i < |txs| ensures reachMap[i] == Reach(Edges(dag), i) == Reach(SeenGraph(txs), i) {
      assert VertexOk(txs, i, dag[i], reachMap[i]);
      DagReach(txs, dag, reachMap, i);
    }
  }

  /** One more vertex. */
  lemma DagGrows(txs: seq<RwKeys>, dag: seq<seq<nat>>, reachMap: seq<set<nat>>, direct: set<nat>, all: set<nat>)
    requires DagOk(txs, dag, reachMap) && |dag| < |txs|
    requires all == Reach(SeenGraph(txs), |dag|) && Pruned(SeenGraph(txs), |dag|, direct, all)
    ensures DagOk(txs, dag + [Ascending(direct, |dag|)], reachMap + [all])
  {
    var i := |dag|;
    AscendingIs(direct, i);
    assert ToSet(Ascending(direct, i)) == direct;
  }

  /** BuildDAG for a block without SQL contracts: edges go to smaller vertices in increasing order, every edge is
      a conflict the code looks at, and the edges reach exactly what those conflicts reach. */
  method BuildNormalDag(txs: seq<RwKeys>) returns (dag: seq<seq<nat>>, reachMap: seq<set<nat>>)
    ensures DagOk(txs, dag, reachMap) && |dag| == |txs|
    ensures Down(Edges(dag))
    ensures forall i :: 0 <= i < |txs| ==> reachMap[i] == Reach(Edges(dag), i) == Reach(SeenGraph(txs), i)
  {
    var readDict, writeDict, readPos, writePos := BuildDictAndPos(txs);
    dag, reachMap := [], [];
    for i := 0 to |txs|
      invariant |dag| == i && DagOk(txs, dag, reachMap)
    {
      var direct, all := BuildReachMap(txs, i, readDict, writeDict, readPos, writePos, reachMap);
      DagGrows(txs, dag, reachMap, direct, all);
      dag, reachMap := dag + [Ascending(direct, i)], reachMap + [all];
    }
    DagDown(txs, dag, reachMap);
    DagReachAll(txs, dag, reachMap);
  }

  /** BuildDAG: the graph for a block, or a chain when contracts run on SQL. */
  method BuildDAG(isSql: bool, txs: seq<RwKeys>) returns (dag: seq<seq<nat>>)
    ensures |dag| == |txs| && Down(Edges(dag)) && forall i :: 0 <= i < |dag| ==> Increasing(dag[i])
    ensures !isSql ==> forall i :: 0 <= i < |txs| ==> Reach(Edges(dag), i) == Reach(SeenGraph(txs), i)
    ensures !isSql ==> forall i, j :: 0 <= i < |txs| && j in dag[i] ==> Sees(txs, i, j)
    ensures isSql ==> forall i, j :: 0 <= j < i < |txs| ==> j in Reach(Edges(dag), i)
  {
    if isSql {
      dag := [];
      for i := 0 to |txs|
        invariant |dag| == i
        invariant forall j :: 0 <= j < i ==> dag[j] == if j == 0 then [] else [j - 1]
      {
        dag := dag + [if i == 0 then [] else [i - 1]];
      }
      forall i, j | 0 <= j < i < |txs| ensures j in Reach(Edges(dag), i) {
        ChainReach(dag, i, j);
      }
    } else {
      var reachMap;
      dag, reachMap := BuildNormalDag(txs);
      DagDown(txs, dag, reachMap);
    }
  }

  lemma {:induction false} ChainReach(dag: seq<seq<nat>>, i: nat, j: nat)
    requires Down(Edges(dag)) && j < i < |dag|
    requires forall p :: 0 < p < |dag| ==> dag[p] == [p - 1]
    ensures j in Reach(Edges(dag), i)
    decreases i
  {
    EdgeReached(Edges(dag), i, i - 1);
    if j == i - 1 {
    } else {
      ChainReach(dag, i - 1, j);
      ReachTransitive(Edges(dag), i, i - 1);
    }
  }
}
