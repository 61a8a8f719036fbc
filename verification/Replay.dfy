/** Deterministic transactions replayed in another order than the one the block was built in. */
module Replay {
  import opened TxLog
  import opened OptimisticApply
  import ConflictGraph

  type RwKeys = ConflictGraph.RwKeys

  /** What a contract asks for next, given everything it has done so far. */
  datatype Call = Get(key: Key) | Set(key: Key, value: Value) | Done(success: bool)

  /** A deterministic contract call. */
  type Program = seq<Event> -> Call

  /** The call that event `e` answers. */
  predicate Answers(call: Call, e: Event) {
    match call
    case Get(k) => e.Read? && e.key == k
    case Set(k, v) => e == Write(k, v)
    case Done(_) => false
  }

  /** `log` is a run of `prog`, maybe unfinished. */
  predicate Follows(prog: Program, log: seq<Event>) {
    log != [] ==> Follows(prog, Front(log)) && Answers(prog(Front(log)), Last(log))
  }

  /** Row `e` is a finished run of `prog` alone after `table`. */
  predicate RanAlone(c: Config, prog: Program, table: seq<Entry>, e: Entry) {
    && Follows(prog, e.log)
    && prog(e.log) == Done(e.success)
    && SerialLog(c.base, table, e.log)
    && e.writes == KeptWrites(c, e.success, LastWrites(e.log))
  }

  /** `table` is the serial execution of `progs` in index order. */
  predicate SerialBlock(c: Config, progs: seq<Program>, table: seq<Entry>) {
    && |table| == |progs|
    && forall i :: 0 <= i < |table| ==> table[i].tx == i && RanAlone(c, progs[i], table[..i], table[i])
  }

  /** `txs` lists, by bare key, at least the keys the rows recorded as read and wrote. */
  predicate Describes(c: Config, bare: Key -> ConflictGraph.Key, table: seq<Entry>, txs: seq<RwKeys>) {
    && |txs| == |table|
    && (forall i, k :: 0 <= i < |table| && k in RecordedKeys(c, table[i].log) ==> bare(k) in txs[i].readKeys)
    && (forall i, k :: 0 <= i < |table| && k in table[i].writes ==> bare(k) in txs[i].writeKeys)
  }

  /** The keys of the read set a log leaves behind. */
  function RecordedKeys(c: Config, log: seq<Event>): set<Key> {
    if log == [] then {}
    else if Last(log).Read? && (c.version < OWN_PUTS_NOT_RECORDED || Last(log).key !in LastWrites(Front(log)))
    then RecordedKeys(c, Front(log)) + {Last(log).key}
    else RecordedKeys(c, Front(log))
  }

  /** The rows of `done` are transactions of the block, none twice, each after everything it conflicts with. */
  predicate Respects(txs: seq<RwKeys>, done: seq<Entry>) {
    && (forall p :: 0 <= p < |done| ==> done[p].tx < |txs|)
    && (forall p, q :: 0 <= p < q < |done| ==> done[p].tx != done[q].tx)
    && (forall p, j :: 0 <= p < |done| && 0 <= j < |txs| && ConflictGraph.Conflict(txs, done[p].tx, j) ==>
          Ran(done[..p], j))
  }

  predicate Ran(done: seq<Entry>, j: nat) {
    exists q :: 0 <= q < |done| && done[q].tx == j
  }

  /** The rows of `done` wrote what the block says. */
  predicate SameWrites(table: seq<Entry>, done: seq<Entry>) {
    forall p :: 0 <= p < |done| ==> done[p].tx < |table| && done[p].writes == table[done[p].tx].writes
  }

  lemma WritersConflict(c: Config, bare: Key -> ConflictGraph.Key, table: seq<Entry>, txs: seq<RwKeys>, i: nat, j: nat, k: Key)
    requires Describes(c, bare, table, txs) && j < i < |table| && k in table[i].writes && k in table[j].writes
    ensures ConflictGraph.Conflict(txs, i, j)
  {
    assert bare(k) in txs[i].writeKeys && bare(k) in txs[j].writeKeys;
  }

  /** A transaction before `i` that writes `k` is not after the last one that does. */
  lemma NotAfterLast(table: seq<Entry>, i: nat, k: Key, j: nat)
    requires j < i <= |table| && k in table[j].writes
    ensures j <= LastWriter(table[..i], k) < i && k in table[LastWriter(table[..i], k)].writes
  {
    var front := table[..i];
    assert front[j] == table[j];
    WriterFound(front, k, j);
  }

  lemma {:induction false} WriterFound(table: seq<Entry>, k: Key, j: nat)
    requires j < |table| && k in table[j].writes
    ensures j <= LastWriter(table, k) < |table| && k in table[LastWriter(table, k)].writes
    decreases |table|
  {
    if k in Last(table).writes {
    } else {
      WriterFound(Front(table), k, j);
    }
  }

  /** The last writer of `k` that ran is the last one before `i`. */
  lemma SameWriter(c: Config, bare: Key -> ConflictGraph.Key, table: seq<Entry>, txs: seq<RwKeys>, done: seq<Entry>,
                   i: nat, k: Key)
    requires Describes(c, bare, table, txs) && Respects(txs, done) && SameWrites(table, done) && i <= |table|
    requires forall p :: 0 <= p < |done| && k in done[p].writes ==> done[p].tx < i
    requires forall j :: 0 <= j < i && k in table[j].writes ==> Ran(done, j)
    requires LastWriter(table[..i], k) >= 0
    ensures 0 <= LastWriter(done, k) < |done| && done[LastWriter(done, k)].tx == LastWriter(table[..i], k)
  {
    var w := LastWriter(table[..i], k);
    assert table[..i][w] == table[w];
    var p :| 0 <= p < |done| && done[p].tx == w;
    WriterFound(done, k, p);
    var v := LastWriter(done, k);
    NotAfterLast(table, i, k, done[v].tx);
    if done[v].tx < w {
      WritersConflict(c, bare, table, txs, w, done[v].tx, k);
      assert false;
    }
  }

  /** If the writers of `k` that ran are exactly those before `i`, `k` has the value it has in the block before `i`. */
  lemma SameLastWriter(c: Config, bare: Key -> ConflictGraph.Key, table: seq<Entry>, txs: seq<RwKeys>, done: seq<Entry>,
                       i: nat, k: Key)
    requires Describes(c, bare, table, txs) && Respects(txs, done) && SameWrites(table, done) && i <= |table|
    requires forall p :: 0 <= p < |done| && k in done[p].writes ==> done[p].tx < i
    requires forall j :: 0 <= j < i && k in table[j].writes ==> Ran(done, j)
    ensures SerialValue(c.base, done, k) == SerialValue(c.base, table[..i], k)
  {
    SerialValueByWriter(c.base, done, k);
    SerialValueByWriter(c.base, table[..i], k);
    if LastWriter(table[..i], k) >= 0 {
      SameWriter(c, bare, table, txs, done, i, k);
    } else if LastWriter(done, k) >= 0 {
      NotAfterLast(table, i, k, done[LastWriter(done, k)].tx);
    }
  }

  /** Transaction `i` is next: what it conflicts with before it has run, and it has not. */
  predicate Ready(txs: seq<RwKeys>, done: seq<Entry>, i: nat) {
    && i < |txs|
    && !Ran(done, i)
    && forall j :: 0 <= j < |txs| && ConflictGraph.Conflict(txs, i, j) ==> Ran(done, j)
  }

  lemma RanBefore(done: seq<Entry>, p: nat, j: nat)
    requires p <= |done| && Ran(done[..p], j)
    ensures Ran(done, j)
  {
    var q :| 0 <= q < p && done[..p][q].tx == j;
    assert done[q].tx == j;
  }

  /** A ready transaction finds every key it uses as it was in the block. */
  lemma ReadyFindsBlockValue(c: Config, bare: Key -> ConflictGraph.Key, table: seq<Entry>, txs: seq<RwKeys>,
                             done: seq<Entry>, i: nat, k: Key)
    requires Describes(c, bare, table, txs) && Respects(txs, done) && SameWrites(table, done) && Ready(txs, done, i)
    requires k in RecordedKeys(c, table[i].log) || k in table[i].writes
    ensures SerialValue(c.base, done, k) == SerialValue(c.base, table[..i], k)
  {
    assert bare(k) in txs[i].readKeys || bare(k) in txs[i].writeKeys;
    forall p | 0 <= p < |done| && k in done[p].writes ensures done[p].tx < i {
      var j := done[p].tx;
      assert bare(k) in txs[j].writeKeys;
      assert j != i;
      if i < j {
        assert ConflictGraph.Conflict(txs, j, i);
        RanBefore(done, p, i);
      }
    }
    forall j | 0 <= j < i && k in table[j].writes ensures Ran(done, j) {
      assert bare(k) in txs[j].writeKeys;
      assert ConflictGraph.Conflict(txs, i, j);
    }
    SameLastWriter(c, bare, table, txs, done, i, k);
  }

  /** A run that is given the same values as a finished run does the same. */
  lemma {:induction false} SamePrefix(c: Config, prog: Program, table: seq<Entry>, log: seq<Event>, done: seq<Entry>,
                                      part: seq<Event>)
    requires Follows(prog, log) && prog(log).Done? && SerialLog(c.base, table, log)
    requires Follows(prog, part) && SerialLog(c.base, done, part)
    requires forall k :: k in RecordedKeys(c, log) ==> SerialValue(c.base, done, k) == SerialValue(c.base, table, k)
    ensures part <= log
  {
    if part == [] {
    } else {
      SamePrefix(c, prog, table, log, done, Front(part));
      var n := |part| - 1;
      assert log[..n] == Front(part);
      assert log[..|log|] == log;
      if n < |log| {
        PrefixOfRun(c, prog, table, log, n);
        assert part == Front(part) + [Last(part)];
      }
    }
  }

  /** Facts about event `n` of a serial run. */
  lemma {:induction false} PrefixOfRun(c: Config, prog: Program, table: seq<Entry>, log: seq<Event>, n: nat)
    requires Follows(prog, log) && SerialLog(c.base, table, log) && n < |log|
    ensures Follows(prog, log[..n]) && SerialLog(c.base, table, log[..n])
    ensures Answers(prog(log[..n]), log[n])
    ensures log[n].Read? ==>
              var own := LastWrites(log[..n]);
              if log[n].key in own then log[n].value == own[log[n].key]
              else log[n].key in RecordedKeys(c, log) && log[n].value == SerialValue(c.base, table, log[n].key)
    decreases |log|
  {
    if n < |log| - 1 {
      PrefixOfRun(c, prog, table, Front(log), n);
      assert Front(log)[..n] == log[..n];
    } else {
      assert log[..n] == Front(log);
    }
  }

  /** A run that has answered every call of the finished run is that run. */
  lemma SameRun(c: Config, prog: Program, table: seq<Entry>, log: seq<Event>, done: seq<Entry>, other: seq<Event>)
    requires Follows(prog, log) && prog(log).Done? && SerialLog(c.base, table, log)
    requires Follows(prog, other) && prog(other).Done? && SerialLog(c.base, done, other)
    requires forall k :: k in RecordedKeys(c, log) ==> SerialValue(c.base, done, k) == SerialValue(c.base, table, k)
    ensures other == log
  {
    SamePrefix(c, prog, table, log, done, other);
    if |other| < |log| {
      assert log[..|other|] == other;
      PrefixOfRun(c, prog, table, log, |other|);
    }
  }

  /** `done` is an execution of transactions of the block in an order that respects their conflicts. */
  predicate Replayed(c: Config, progs: seq<Program>, txs: seq<RwKeys>, done: seq<Entry>) {
    && |txs| == |progs|
    && Respects(txs, done)
    && forall p :: 0 <= p < |done| ==> RanAlone(c, progs[done[p].tx], done[..p], done[p])
  }

  /** Rows of a replay did what the block says. */
  predicate SameRows(table: seq<Entry>, done: seq<Entry>) {
    forall p :: 0 <= p < |done| ==>
      && done[p].tx < |table|
      && done[p].log == table[done[p].tx].log
      && done[p].success == table[done[p].tx].success
      && done[p].writes == table[done[p].tx].writes
  }

  /** In any order that respects the conflicts every transaction is given the values it was given when the block
      was built, and writes the same. */
  lemma {:induction false} ReplaySameRows(c: Config, progs: seq<Program>, bare: Key -> ConflictGraph.Key, table: seq<Entry>,
                                          txs: seq<RwKeys>, done: seq<Entry>)
    requires SerialBlock(c, progs, table) && Describes(c, bare, table, txs) && Replayed(c, progs, txs, done)
    ensures SameRows(table, done)
    decreases |done|
  {
    if done == [] {
    } else {
      var n := |done| - 1;
      var before, i := done[..n], done[n].tx;
      assert Replayed(c, progs, txs, before) by {
        forall p | 0 <= p < |before| ensures RanAlone(c, progs[before[p].tx], before[..p], before[p]) {
          assert before[..p] == done[..p] && before[p] == done[p];
        }
        forall p | 0 <= p < |before| ensures before[..p] == done[..p] {}
      }
      ReplaySameRows(c, progs, bare, table, txs, before);
      assert forall p :: 0 <= p < n ==> before[p] == done[p];
      assert SameWrites(table, before);
      assert !Ran(before, i);
      assert Ready(txs, before, i);
      forall k | k in RecordedKeys(c, table[i].log) ensures SerialValue(c.base, before, k) == SerialValue(c.base, table[..i], k) {
        ReadyFindsBlockValue(c, bare, table, txs, before, i, k);
      }
      SameRun(c, progs[i], table[..i], table[i].log, before, done[n].log);
    }
  }

  /** A complete replay also leaves the same state. */
  lemma ReplaySameState(c: Config, progs: seq<Program>, bare: Key -> ConflictGraph.Key, table: seq<Entry>,
                        txs: seq<RwKeys>, done: seq<Entry>, k: Key)
    requires SerialBlock(c, progs, table) && Describes(c, bare, table, txs) && Replayed(c, progs, txs, done)
    requires forall j :: 0 <= j < |table| ==> Ran(done, j)
    ensures SameRows(table, done)
    ensures SerialValue(c.base, done, k) == SerialValue(c.base, table, k)
  {
    ReplaySameRows(c, progs, bare, table, txs, done);
    assert table[..|table|] == table;
    SameLastWriter(c, bare, table, txs, done, |table|, k);
  }
}
