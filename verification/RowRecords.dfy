/** What the rows of every run record, whatever the interleaving: which reads and writes of a transaction reach its row and
    the read table, and which transactions are refused once the snapshot is sealed. */
module RowRecords {
  import opened Basics
  import opened TxLog
  import opened OptimisticApply
  import opened OptimisticApplyProof
  import opened OptimisticApplyTheorems

  // --- the read-write set of a log ---

  /** Event `p` is a read of `k` that is recorded: not one answered by an own put, from version 2030500 on. */
  predicate RecordsAt(c: Config, log: seq<Event>, k: Key, p: int) {
    0 <= p < |log| && log[p].Read? && log[p].key == k && (c.version < 2030500 || k !in LastWrites(log[..p]))
  }

  ghost predicate Records(c: Config, log: seq<Event>, k: Key) {
    exists p :: RecordsAt(c, log, k, p)
  }

  predicate IsLastRecord(c: Config, log: seq<Event>, k: Key, p: int) {
    RecordsAt(c, log, k, p) && forall q :: p < q < |log| ==> !RecordsAt(c, log, k, q)
  }

  /** The read set has `k` with the value of its last recorded read, or not at all if there is none. */
  ghost predicate ReadKept(c: Config, log: seq<Event>, readSet: map<Key, Value>, k: Key) {
    (k in readSet <==> Records(c, log, k)) && forall p :: IsLastRecord(c, log, k, p) ==> k in readSet && readSet[k] == log[p].value
  }

  ghost predicate ReadsKept(c: Config, log: seq<Event>, readSet: map<Key, Value>) {
    forall k :: ReadKept(c, log, readSet, k)
  }

  /** The writes of a run that reach its row: all of them if it succeeded, none if it failed before version 2300, and from
      then on those of the account manager. */
  ghost predicate WritesKept(c: Config, success: bool, log: seq<Event>, writes: map<Key, Value>) {
    && (success ==> writes == LastWrites(log))
    && (!success && c.version < 2300 ==> writes == map[])
    && (!success && c.version >= 2300 ==>
          forall k :: (k in writes <==> k in LastWrites(log) && k in c.accountKeys)
                      && (k in writes ==> writes[k] == LastWrites(log)[k]))
  }

  ghost predicate RowKept(c: Config, e: Entry) {
    WritesKept(c, e.success, e.log, e.writes) && ReadsKept(c, e.log, e.readSet)
  }

  // --- one more event ---

  lemma RecordsBefore(c: Config, log: seq<Event>, e: Event, k: Key, p: int)
    requires p < |log|
    ensures RecordsAt(c, log + [e], k, p) <==> RecordsAt(c, log, k, p)
  {
    if 0 <= p {
      assert (log + [e])[..p] == log[..p] && (log + [e])[p] == log[p];
    }
  }

  lemma RecordsLast(c: Config, log: seq<Event>, e: Event, k: Key)
    ensures RecordsAt(c, log + [e], k, |log|) <==> e.Read? && e.key == k && (c.version < 2030500 || k !in LastWrites(log))
  {
    assert (log + [e])[..|log|] == log;
  }

  /** An event that records no read of `k`. */
  lemma NotNoted(c: Config, log: seq<Event>, e: Event, readSet: map<Key, Value>, readSet': map<Key, Value>, k: Key)
    requires ReadKept(c, log, readSet, k) && !RecordsAt(c, log + [e], k, |log|)
    requires (k in readSet' <==> k in readSet) && (k in readSet ==> readSet'[k] == readSet[k])
    ensures ReadKept(c, log + [e], readSet', k)
  {
    forall p | p < |log| ensures RecordsAt(c, log + [e], k, p) <==> RecordsAt(c, log, k, p) {
      RecordsBefore(c, log, e, k, p);
    }
    if Records(c, log, k) {
      var p :| RecordsAt(c, log, k, p);
      assert RecordsAt(c, log + [e], k, p);
    }
    forall p | IsLastRecord(c, log + [e], k, p) ensures IsLastRecord(c, log, k, p) && (log + [e])[p] == log[p] {
    }
  }

  /** An event that records one. */
  lemma Noted(c: Config, log: seq<Event>, e: Event, readSet': map<Key, Value>, k: Key)
    requires RecordsAt(c, log + [e], k, |log|) && k in readSet' && readSet'[k] == e.value
    ensures ReadKept(c, log + [e], readSet', k)
  {
  }

  /** The read set after one more event. */
  function NextReads(c: Config, log: seq<Event>, readSet: map<Key, Value>, e: Event): map<Key, Value> {
    if e.Read? && (c.version < 2030500 || e.key !in LastWrites(log)) then readSet[e.key := e.value] else readSet
  }

  lemma ReadsStep(c: Config, log: seq<Event>, readSet: map<Key, Value>, e: Event)
    requires ReadsKept(c, log, readSet)
    ensures ReadsKept(c, log + [e], NextReads(c, log, readSet, e))
  {
    forall k ensures ReadKept(c, log + [e], NextReads(c, log, readSet, e), k) {
      RecordsLast(c, log, e, k);
      if RecordsAt(c, log + [e], k, |log|) {
        Noted(c, log, e, NextReads(c, log, readSet, e), k);
      } else {
        NotNoted(c, log, e, readSet, NextReads(c, log, readSet, e), k);
      }
    }
  }

  // --- contexts ---

  ghost predicate CtxKept(c: Config, x: Ctx) {
    && x.writeSet == LastWrites(x.log) && ReadsKept(c, x.log, x.readSet)
    && (x.phase.Finished() ==> WritesKept(c, x.success, x.log, x.writes))
  }

  /** A running context after one more event. */
  lemma EventKept(c: Config, x: Ctx, e: Event, y: Ctx)
    requires CtxKept(c, x) && y.log == x.log + [e] && !y.phase.Finished()
    requires y.readSet == NextReads(c, x.log, x.readSet, e)
    requires y.writeSet == if e.Write? then x.writeSet[e.key := e.value] else x.writeSet
    ensures CtxKept(c, y)
  {
    ReadsStep(c, x.log, x.readSet, e);
    assert Front(y.log) == x.log && Last(y.log) == e;
  }

  lemma ObserveKept(c: Config, x: Ctx, k: Key, v: Value, y: Ctx)
    requires CtxKept(c, x) && k !in x.writeSet && !y.phase.Finished() && y == Observe(x, k, v).(phase := y.phase)
    ensures CtxKept(c, y)
  {
    EventKept(c, x, Read(k, v), y);
  }

  lemma OwnReadKept(c: Config, s: State, t: nat, k: Key)
    requires Enabled(s, ReadOwn(t, k)) && CtxKept(c, s.txs[t])
    ensures CtxKept(c, Do(c, s, ReadOwn(t, k)).txs[t])
  {
    EventKept(c, s.txs[t], Read(k, s.txs[t].writeSet[k]), Do(c, s, ReadOwn(t, k)).txs[t]);
  }

  lemma RecordedReadKept(c: Config, s: State, t: nat, k: Key)
    requires Enabled(s, ReadRecorded(t, k)) && CtxKept(c, s.txs[t])
    ensures CtxKept(c, Do(c, s, ReadRecorded(t, k)).txs[t])
  {
    var x := s.txs[t];
    assert x.readSet[k := x.readSet[k]] == x.readSet;
    EventKept(c, x, Read(k, x.readSet[k]), Do(c, s, ReadRecorded(t, k)).txs[t]);
  }

  lemma PutKept(c: Config, s: State, t: nat, k: Key, v: Value)
    requires Enabled(s, Put(t, k, v)) && CtxKept(c, s.txs[t])
    ensures CtxKept(c, Do(c, s, Put(t, k, v)).txs[t])
  {
    EventKept(c, s.txs[t], Write(k, v), Do(c, s, Put(t, k, v)).txs[t]);
  }

  /** A context does not look for keys it has put itself. */
  ghost predicate Seeks(x: Ctx) {
    && (x.phase.MissedWriteTable? || x.phase.MissedReadTable? ==> x.phase.key !in x.writeSet)
    && (forall k :: k in Missed(x) || k in Sought(x) ==> k !in x.writeSet)
  }

  lemma ProbeKept(c: Config, s: State, t: nat, k: Key)
    requires Enabled(s, ProbeWriteTable(t, k)) && CtxKept(c, s.txs[t])
    ensures CtxKept(c, Do(c, s, ProbeWriteTable(t, k)).txs[t]) && Seeks(Do(c, s, ProbeWriteTable(t, k)).txs[t])
  {
    if k in s.writeTable {
      ObserveKept(c, s.txs[t], k, s.writeTable[k].value, Do(c, s, ProbeWriteTable(t, k)).txs[t]);
    }
  }

  lemma ProbeReadKept(c: Config, s: State, t: nat)
    requires Enabled(s, ProbeReadTable(t)) && CtxKept(c, s.txs[t]) && Seeks(s.txs[t])
    ensures CtxKept(c, Do(c, s, ProbeReadTable(t)).txs[t]) && Seeks(Do(c, s, ProbeReadTable(t)).txs[t])
  {
    var k := s.txs[t].phase.key;
    if k in s.readTable {
      ObserveKept(c, s.txs[t], k, s.readTable[k].value, Do(c, s, ProbeReadTable(t)).txs[t]);
    }
  }

  lemma BaseKept(c: Config, s: State, t: nat)
    requires Enabled(s, ReadBase(t)) && CtxKept(c, s.txs[t]) && Seeks(s.txs[t])
    ensures CtxKept(c, Do(c, s, ReadBase(t)).txs[t]) && Seeks(Do(c, s, ReadBase(t)).txs[t])
  {
    ObserveKept(c, s.txs[t], s.txs[t].phase.key, c.base(s.txs[t].phase.key), Do(c, s, ReadBase(t)).txs[t]);
  }

  lemma BatchKept(c: Config, s: State, x: Ctx, step: BatchStep)
    requires CanBatch(x, step) && CtxKept(c, x) && Seeks(x)
    ensures CtxKept(c, AfterBatch(c, s, x, step)) && Seeks(AfterBatch(c, s, x, step))
  {
    var y := AfterBatch(c, s, x, step);
    match step {
      case Ask(k) =>
        if k in s.writeTable {
          ObserveKept(c, x, k, s.writeTable[k].value, y);
        }
      case AskCache(k) =>
        if k in s.readTable {
          ObserveKept(c, x, k, s.readTable[k].value, y);
        }
      case AskBelow(k) => ObserveKept(c, x, k, c.base(k), y);
      case Return =>
    }
  }

  lemma FinishKept(c: Config, s: State, t: nat, success: bool)
    requires Enabled(s, Finish(t, success)) && CtxKept(c, s.txs[t]) && t in Do(c, s, Finish(t, success)).txs
    ensures CtxKept(c, Do(c, s, Finish(t, success)).txs[t])
  {
  }

  /** After the run only the phase changes. */
  predicate PhaseOnly(x: Ctx, y: Ctx) {
    y == x.(phase := y.phase) && x.phase.Finished() && y.phase.Finished()
  }

  /** Only recorded keys are checked. */
  predicate Checks(x: Ctx) {
    x.phase.PreChecking? || x.phase.Rechecking? ==> x.phase.todo <= x.readSet.Keys
  }

  lemma CheckPhase(c: Config, s: State, a: Action)
    requires (a.PreCheck? || a.PreCheckDone? || a.Acquire?) && Enabled(s, a) && a.t in Do(c, s, a).txs
    ensures PhaseOnly(s.txs[a.t], Do(c, s, a).txs[a.t]) && (Checks(s.txs[a.t]) ==> Checks(Do(c, s, a).txs[a.t]))
  {
  }

  /** The context behind the gate. */
  function GateCtx(c: Config, s: State, x: Ctx): Ctx {
    if x.kind.Deferred? then x.(phase := Deferring)
    else if x.kind.Checked() && x.execSeq < |s.table| then x.(phase := Rechecking(x.readSet.Keys))
    else StartPutting(c, x)
  }

  lemma GateDo(c: Config, s: State, t: nat)
    requires Enabled(s, Gate(t)) && t in Do(c, s, Gate(t)).txs
    ensures Do(c, s, Gate(t)).txs[t] == GateCtx(c, s, s.txs[t])
  {
  }

  lemma GateCtxPhase(c: Config, s: State, x: Ctx)
    requires x.phase.Locked?
    ensures PhaseOnly(x, GateCtx(c, s, x)) && Checks(GateCtx(c, s, x))
  {
  }

  lemma GatePhase(c: Config, s: State, t: nat)
    requires Enabled(s, Gate(t)) && t in Do(c, s, Gate(t)).txs
    ensures PhaseOnly(s.txs[t], Do(c, s, Gate(t)).txs[t]) && Checks(Do(c, s, Gate(t)).txs[t])
  {
    GateDo(c, s, t);
    GateCtxPhase(c, s, s.txs[t]);
  }

  lemma RecheckPhase(c: Config, s: State, a: Action)
    requires (a.Recheck? || a.RecheckDone?) && Enabled(s, a) && a.t in Do(c, s, a).txs
    ensures PhaseOnly(s.txs[a.t], Do(c, s, a).txs[a.t]) && (Checks(s.txs[a.t]) ==> Checks(Do(c, s, a).txs[a.t]))
  {
  }

  lemma PutPhase(c: Config, s: State, a: Action)
    requires (a.PutRead? || a.PutWrite? || a.Append?) && Enabled(s, a)
    ensures a.t in s.txs && a.t in Do(c, s, a).txs && PhaseOnly(s.txs[a.t], Do(c, s, a).txs[a.t])
    ensures Checks(Do(c, s, a).txs[a.t])
  {
  }

  lemma LatePhase(c: Config, s: State, a: Action)
    requires Enabled(s, a) && !a.Seal? && a.t in s.txs && a.t in Do(c, s, a).txs
    requires a.PreCheck? || a.PreCheckDone? || !Unlocked(a)
    ensures PhaseOnly(s.txs[a.t], Do(c, s, a).txs[a.t]) && (Checks(s.txs[a.t]) ==> Checks(Do(c, s, a).txs[a.t]))
  {
    if a.PreCheck? || a.PreCheckDone? || a.Acquire? {
      CheckPhase(c, s, a);
    } else if a.Gate? {
      GatePhase(c, s, a.t);
    } else if a.Recheck? || a.RecheckDone? {
      RecheckPhase(c, s, a);
    } else if a.PutRead? || a.PutWrite? || a.Append? {
      PutPhase(c, s, a);
    }
  }

  ghost predicate Keeping(c: Config, x: Ctx) {
    CtxKept(c, x) && Seeks(x) && Checks(x)
  }

  lemma RunStepKept(c: Config, s: State, a: Action)
    requires Enabled(s, a) && Unlocked(a) && !a.PreCheck? && !a.PreCheckDone? && a.t in Do(c, s, a).txs
    requires a.t in s.txs ==> Keeping(c, s.txs[a.t])
    ensures Keeping(c, Do(c, s, a).txs[a.t])
  {
    if a.Start? {
      StartKept(c, s, a.t, a.kind);
    } else if a.ReadOwn? {
      OwnReadKept(c, s, a.t, a.key);
    } else if a.ReadRecorded? {
      RecordedReadKept(c, s, a.t, a.key);
    } else if a.Put? {
      PutKept(c, s, a.t, a.key, a.value);
    } else if a.Finish? {
      FinishKept(c, s, a.t, a.success);
    } else {
      ProbeStepKept(c, s, a);
    }
  }

  lemma StartKept(c: Config, s: State, t: nat, kind: Kind)
    requires Enabled(s, Start(t, kind))
    ensures Keeping(c, Do(c, s, Start(t, kind)).txs[t])
  {
  }

  lemma ProbeStepKept(c: Config, s: State, a: Action)
    requires Enabled(s, a) && (a.ProbeWriteTable? || a.ProbeReadTable? || a.ReadBase? || a.BatchGet?) && Keeping(c, s.txs[a.t])
    ensures a.t in Do(c, s, a).txs && Keeping(c, Do(c, s, a).txs[a.t])
  {
    if a.ProbeWriteTable? {
      ProbeKept(c, s, a.t, a.key);
    } else if a.ProbeReadTable? {
      ProbeReadKept(c, s, a.t);
    } else if a.ReadBase? {
      BaseKept(c, s, a.t);
    } else {
      BatchKept(c, s, s.txs[a.t], a.step);
    }
  }

  lemma OwnStepKept(c: Config, s: State, a: Action)
    requires Enabled(s, a) && !a.Seal? && a.t in Do(c, s, a).txs
    requires a.t in s.txs ==> Keeping(c, s.txs[a.t])
    ensures Keeping(c, Do(c, s, a).txs[a.t])
  {
    if Unlocked(a) && !a.PreCheck? && !a.PreCheckDone? {
      RunStepKept(c, s, a);
    } else {
      LatePhase(c, s, a);
    }
  }

  ghost predicate AllKept(c: Config, s: State) {
    && (forall t :: t in s.txs ==> Keeping(c, s.txs[t]))
    && (forall i :: 0 <= i < |s.table| ==> RowKept(c, s.table[i]))
  }

  lemma StepRowsKept(c: Config, s: State, a: Action)
    requires Enabled(s, a) && AllKept(c, s)
    ensures forall i :: 0 <= i < |Do(c, s, a).table| ==> RowKept(c, Do(c, s, a).table[i])
  {
    StepRecords(c, s, a);
    if a.Append? {
      assert Keeping(c, s.txs[a.t]) && Do(c, s, a).table == s.table + [Row(a.t, s.txs[a.t])];
    } else {
      assert |RowIds(Do(c, s, a).table)| == |RowIds(s.table)|;
    }
  }

  lemma StepKept(c: Config, s: State, a: Action)
    requires Enabled(s, a) && AllKept(c, s)
    ensures AllKept(c, Do(c, s, a))
  {
    var s' := Do(c, s, a);
    StepRowsKept(c, s, a);
    if !a.Seal? {
      if Unlocked(a) {
        RunStepShape(c, s, a);
      } else {
        LockStepTxs(c, s, a);
      }
      forall t | t in s'.txs ensures Keeping(c, s'.txs[t]) {
        if t == a.t {
          OwnStepKept(c, s, a);
        }
      }
    }
  }

  lemma {:induction false} RunKept(c: Config, s: State, acts: seq<Action>)
    requires RunsFrom(c, s, acts) && AllKept(c, s)
    ensures AllKept(c, After(c, s, acts))
    decreases |acts|
  {
    if acts == [] {
    } else {
      StepKept(c, s, acts[0]);
      RunKept(c, Do(c, s, acts[0]), acts[1..]);
    }
  }

  /** In every run, of whatever version and with whatever failures, every row records exactly the reads and writes of its
      transaction that count: those writes, and the last recorded read of every key. */
  lemma RowsKept(c: Config, acts: seq<Action>)
    requires RunsFrom(c, Init(), acts)
    ensures forall i :: 0 <= i < |After(c, Init(), acts).table| ==> RowKept(c, After(c, Init(), acts).table[i])
  {
    RunKept(c, Init(), acts);
  }

  /** A failed transaction changes nobody else's values: none before version 2300, and from then on only what its own
      account-manager writes say. */
  lemma FailedRowHarmless(c: Config, acts: seq<Action>, i: nat, k: Key)
    requires RunsFrom(c, Init(), acts) && i < |After(c, Init(), acts).table| && !After(c, Init(), acts).table[i].success
    requires c.version < 2300 || k !in c.accountKeys
    ensures var table := After(c, Init(), acts).table;
            SerialValue(c.base, table[..i + 1], k) == SerialValue(c.base, table[..i], k)
  {
    var table := After(c, Init(), acts).table;
    RowsKept(c, acts);
    assert RowKept(c, table[i]);
    assert Front(table[..i + 1]) == table[..i] && Last(table[..i + 1]) == table[i];
  }

  // --- the read table ---

  /** The reads of a run reach the read table, unless it failed and the version is 2201 or later. */
  predicate Caches(c: Config, success: bool) {
    c.version < 2201 || success
  }

  predicate CachedByRow(c: Config, table: seq<Entry>, k: Key) {
    exists i :: 0 <= i < |table| && Caches(c, table[i].success) && k in table[i].readSet
  }

  predicate CachedByHolder(c: Config, s: State, k: Key) {
    && s.lock.Some? && s.lock.value in s.txs && s.txs[s.lock.value].phase.Putting?
    && var x := s.txs[s.lock.value]; Caches(c, x.success) && k in x.readSet && k !in x.phase.readsTodo
  }

  /** The reads that the holder of the lock still has to put are among those to put. */
  predicate HolderTodo(c: Config, s: State) {
    s.lock.Some? && s.lock.value in s.txs && s.txs[s.lock.value].phase.Putting? ==>
      s.txs[s.lock.value].phase.readsTodo <= CachedReads(c, s.txs[s.lock.value])
  }

  ghost predicate CacheIs(c: Config, s: State) {
    HolderTodo(c, s) && forall k :: k in s.readTable <==> CachedByRow(c, s.table, k) || CachedByHolder(c, s, k)
  }

  /** Nothing that the read table depends on changes. */
  lemma SameCache(c: Config, s: State, s': State)
    requires CacheIs(c, s) && s'.readTable == s.readTable && s'.table == s.table && HolderTodo(c, s')
    requires forall k :: CachedByHolder(c, s', k) <==> CachedByHolder(c, s, k)
    ensures CacheIs(c, s')
  {
  }

  lemma AppendCache(c: Config, s: State, t: nat)
    requires LockOk(s) && CacheIs(c, s) && Enabled(s, Append(t))
    ensures CacheIs(c, Do(c, s, Append(t)))
  {
    var x, s' := s.txs[t], Do(c, s, Append(t));
    forall k ensures k in s'.readTable <==> CachedByRow(c, s'.table, k) || CachedByHolder(c, s', k) {
      RowCaches(c, s.table, Row(t, x), k);
    }
  }

  lemma RowCaches(c: Config, table: seq<Entry>, e: Entry, k: Key)
    ensures CachedByRow(c, table + [e], k) <==> CachedByRow(c, table, k) || (Caches(c, e.success) && k in e.readSet)
  {
    if CachedByRow(c, table, k) {
      var i :| 0 <= i < |table| && Caches(c, table[i].success) && k in table[i].readSet;
      assert (table + [e])[i] == table[i];
    }
    assert (table + [e])[|table|] == e;
  }

  lemma PutReadCache(c: Config, s: State, t: nat, r: Key)
    requires LockOk(s) && CacheIs(c, s) && Enabled(s, PutRead(t, r))
    ensures CacheIs(c, Do(c, s, PutRead(t, r)))
  {
    var s' := Do(c, s, PutRead(t, r));
    assert s.lock == Some(t) && s'.lock == Some(t) && s'.table == s.table;
    forall k ensures k in s'.readTable <==> CachedByRow(c, s'.table, k) || CachedByHolder(c, s', k) {
    }
  }

  lemma PutWriteCache(c: Config, s: State, t: nat, r: Key)
    requires LockOk(s) && CacheIs(c, s) && Enabled(s, PutWrite(t, r))
    ensures CacheIs(c, Do(c, s, PutWrite(t, r)))
  {
    var s' := Do(c, s, PutWrite(t, r));
    assert s.lock == Some(t) && s'.lock == Some(t);
    SameCache(c, s, s');
  }

  /** A step that begins or ends no puts. */
  lemma GateCache(c: Config, s: State, t: nat)
    requires LockOk(s) && CacheIs(c, s) && Enabled(s, Gate(t))
    ensures CacheIs(c, Do(c, s, Gate(t)))
  {
    assert s.lock == Some(t);
    if s.txs[t].kind.Gated() && s.sealed {
      GateShut(c, s, t);
    } else {
      GateEntered(c, s, t);
      GateDo(c, s, t);
    }
    SameCache(c, s, Do(c, s, Gate(t)));
  }

  lemma LockedCache(c: Config, s: State, a: Action)
    requires LockOk(s) && CacheIs(c, s) && Enabled(s, a)
    requires a.Acquire? || a.AppendSpecial? || a.Recheck? || a.RecheckDone? || a.Release?
    ensures CacheIs(c, Do(c, s, a))
  {
    SameCache(c, s, Do(c, s, a));
  }

  lemma UnlockedCache(c: Config, s: State, a: Action)
    requires LockOk(s) && CacheIs(c, s) && Enabled(s, a) && (Unlocked(a) || a.Seal?)
    ensures CacheIs(c, Do(c, s, a))
  {
    if !a.Seal? {
      RunStepShape(c, s, a);
    }
    SameCache(c, s, Do(c, s, a));
  }

  lemma StepCache(c: Config, s: State, a: Action)
    requires LockOk(s) && CacheIs(c, s) && Enabled(s, a)
    ensures CacheIs(c, Do(c, s, a))
  {
    if Unlocked(a) || a.Seal? {
      UnlockedCache(c, s, a);
    } else if a.Append? {
      AppendCache(c, s, a.t);
    } else if a.PutRead? {
      PutReadCache(c, s, a.t, a.key);
    } else if a.PutWrite? {
      PutWriteCache(c, s, a.t, a.key);
    } else if a.Gate? {
      GateCache(c, s, a.t);
    } else {
      LockedCache(c, s, a);
    }
  }

  lemma {:induction false} RunCache(c: Config, s: State, acts: seq<Action>)
    requires RunsFrom(c, s, acts) && LockOk(s) && CacheIs(c, s)
    ensures CacheIs(c, After(c, s, acts))
    decreases |acts|
  {
    if acts == [] {
    } else {
      StepLockOk(c, s, acts[0]);
      StepCache(c, s, acts[0]);
      RunCache(c, Do(c, s, acts[0]), acts[1..]);
    }
  }

  /** While nobody holds the lock the read table has exactly the keys recorded by the rows whose reads count. */
  lemma ReadTableKeys(c: Config, acts: seq<Action>, k: Key)
    requires RunsFrom(c, Init(), acts) && After(c, Init(), acts).lock.None?
    ensures var s := After(c, Init(), acts);
            k in s.readTable <==>
            exists i :: 0 <= i < |s.table| && (c.version < 2201 || s.table[i].success) && k in s.table[i].readSet
  {
    RunCache(c, Init(), acts);
    var s := After(c, Init(), acts);
    assert k in s.readTable <==> CachedByRow(c, s.table, k);
  }

  // --- second runs and gas transactions ---

  /** A second run of an iterator transaction or a gas transaction that is under way. */
  predicate Exempt(x: Ctx) {
    (x.kind.Rerun? || x.kind.Gas?) && !x.phase.PreChecking? && !x.phase.Rechecking? && !x.phase.Deferring?
  }

  /** It is still under way, and stored only by its append. */
  predicate StaysExempt(s': State, a: Action)
    requires !a.Seal?
  {
    a.t in s'.txs && Exempt(s'.txs[a.t]) && (s'.txs[a.t].phase.Stored? <==> a.Append?)
  }

  lemma ReadExempt(c: Config, s: State, a: Action)
    requires !a.Seal? && Enabled(s, a) && a.t in s.txs && Exempt(s.txs[a.t])
    requires a.ReadOwn? || a.ReadRecorded? || a.ProbeWriteTable? || a.ProbeReadTable? || a.ReadBase?
    ensures StaysExempt(Do(c, s, a), a)
  {
  }

  lemma BatchExempt(c: Config, s: State, t: nat, step: BatchStep)
    requires Enabled(s, BatchGet(t, step)) && Exempt(s.txs[t])
    ensures StaysExempt(Do(c, s, BatchGet(t, step)), BatchGet(t, step))
  {
  }

  lemma FinishExempt(c: Config, s: State, a: Action)
    requires !a.Seal? && Enabled(s, a) && a.t in s.txs && Exempt(s.txs[a.t]) && (a.Put? || a.Finish? || a.Acquire?)
    ensures StaysExempt(Do(c, s, a), a)
  {
  }

  lemma GateExempt(c: Config, s: State, t: nat)
    requires Enabled(s, Gate(t)) && Exempt(s.txs[t])
    ensures StaysExempt(Do(c, s, Gate(t)), Gate(t)) && Do(c, s, Gate(t)).txs[t].phase.Putting?
  {
  }

  lemma PutExempt(c: Config, s: State, a: Action)
    requires !a.Seal? && Enabled(s, a) && a.t in s.txs && Exempt(s.txs[a.t]) && (a.PutRead? || a.PutWrite? || a.Append?)
    ensures StaysExempt(Do(c, s, a), a)
  {
  }

  /** No step of it rejects it. */
  lemma OwnExempt(c: Config, s: State, a: Action)
    requires Enabled(s, a) && !a.Seal? && a.t in s.txs && Exempt(s.txs[a.t]) && !s.txs[a.t].phase.Stored?
    ensures StaysExempt(Do(c, s, a), a)
  {
    if a.BatchGet? {
      BatchExempt(c, s, a.t, a.step);
    } else if a.Put? || a.Finish? || a.Acquire? {
      FinishExempt(c, s, a);
    } else if a.Gate? {
      GateExempt(c, s, a.t);
    } else if a.PutRead? || a.PutWrite? || a.Append? {
      PutExempt(c, s, a);
    } else {
      ReadExempt(c, s, a);
    }
  }

  /** Or of another transaction. */
  lemma OthersExempt(c: Config, s: State, a: Action, t: nat)
    requires Enabled(s, a) && t in s.txs && (a.Seal? || a.t != t)
    ensures t in Do(c, s, a).txs && Do(c, s, a).txs[t] == s.txs[t]
  {
    if a.Seal? {
    } else if Unlocked(a) {
      RunStepShape(c, s, a);
    } else {
      LockStepTxs(c, s, a);
    }
  }

  lemma {:induction false} ExemptRun(c: Config, s: State, acts: seq<Action>, t: nat)
    requires RunsFrom(c, s, acts) && t in s.txs && Exempt(s.txs[t]) && !s.txs[t].phase.Stored?
    ensures t in AppendedBy(acts) || (t in After(c, s, acts).txs && Exempt(After(c, s, acts).txs[t]))
    decreases |acts|
  {
    if acts == [] {
    } else {
      var a := acts[0];
      if a.Append? && a.t == t {
        assert AppendedBy(acts) == [t] + AppendedBy(acts[1..]);
      } else {
        if !a.Seal? && a.t == t {
          OwnExempt(c, s, a);
        } else {
          OthersExempt(c, s, a, t);
        }
        ExemptRun(c, Do(c, s, a), acts[1..], t);
      }
    }
  }

  /** A second run of an iterator transaction, or a gas transaction, is never rejected, sealed or not: in every run it is
      under way until its row is appended. */
  lemma NeverRefused(c: Config, before: seq<Action>, t: nat, kind: Kind, after: seq<Action>)
    requires kind.Rerun? || kind.Gas?
    requires RunsFrom(c, Init(), before) && Enabled(After(c, Init(), before), Start(t, kind))
    requires RunsFrom(c, Do(c, After(c, Init(), before), Start(t, kind)), after)
    ensures t in AppendedBy(after) || t in After(c, Do(c, After(c, Init(), before), Start(t, kind)), after).txs
  {
    ExemptRun(c, Do(c, After(c, Init(), before), Start(t, kind)), after, t);
  }

  // --- refusals ---

  /** The snapshot refuses it: sealed for its kind, or a key it recorded has been written since it started. */
  predicate Refusable(s: State, x: Ctx) {
    || (s.sealed && (x.kind.Normal? || x.kind.SZ? || x.kind.Deferred?))
    || (exists k :: k in x.readSet && k in s.writeTable && s.writeTable[k].index >= x.execSeq)
  }

  /** And these are refused: a normal transaction that ends after the seal, one of the gated kinds that comes to the gate after
      it, and one with a recorded key that has been written since it started, when the key is checked. */
  lemma RefusedWhen(c: Config, s: State, a: Action)
    requires Enabled(s, a) && !a.Seal? && a.t in s.txs
    requires var x := s.txs[a.t];
             || (a.Finish? && s.sealed && x.kind.Normal?)
             || (a.Gate? && s.sealed && (x.kind.Normal? || x.kind.SZ? || x.kind.Deferred?))
             || ((a.PreCheck? || a.Recheck?) && a.key in s.writeTable && s.writeTable[a.key].index >= x.execSeq)
    ensures a.t !in Do(c, s, a).txs && Do(c, s, a).table == s.table && Do(c, s, a).special == s.special
  {
  }

  lemma GateRefuses(c: Config, s: State, t: nat)
    requires Enabled(s, Gate(t)) && t !in Do(c, s, Gate(t)).txs
    ensures Refusable(s, s.txs[t])
  {
  }

  lemma CheckRefuses(c: Config, s: State, a: Action)
    requires Enabled(s, a) && (a.Finish? || a.PreCheck? || a.Recheck?) && a.t !in Do(c, s, a).txs
    requires Checks(s.txs[a.t])
    ensures Refusable(s, s.txs[a.t])
  {
  }

  lemma Remains(c: Config, s: State, a: Action)
    requires Enabled(s, a) && !a.Seal? && !a.Finish? && !a.PreCheck? && !a.Gate? && !a.Recheck?
    requires !a.AppendSpecial? && !a.Release?
    ensures a.t in Do(c, s, a).txs
  {
  }

  /** In every run a transaction that leaves without a row and is not put off was refused for one of these reasons. */
  lemma RefusedOnlyFor(c: Config, acts: seq<Action>, a: Action)
    requires RunsFrom(c, Init(), acts) && Enabled(After(c, Init(), acts), a) && !a.Seal?
    requires a.t in After(c, Init(), acts).txs && a.t !in Do(c, After(c, Init(), acts), a).txs
    ensures a.Release? || a.AppendSpecial? || Refusable(After(c, Init(), acts), After(c, Init(), acts).txs[a.t])
  {
    var s := After(c, Init(), acts);
    RunKept(c, Init(), acts);
    assert Keeping(c, s.txs[a.t]);
    if a.Gate? {
      GateRefuses(c, s, a.t);
    } else if a.Finish? || a.PreCheck? || a.Recheck? {
      CheckRefuses(c, s, a);
    } else if !a.Release? && !a.AppendSpecial? {
      Remains(c, s, a);
    }
  }

  // --- first runs of iterator transactions ---

  /** The first run of an iterator transaction never puts anything, and only such runs are put off. */
  predicate Defers(x: Ctx) {
    && (x.kind.Deferred? ==> !x.phase.Rechecking? && !x.phase.Putting? && !x.phase.Stored?)
    && (x.phase.Deferring? ==> x.kind.Deferred?)
  }

  lemma RunDefers(c: Config, s: State, a: Action)
    requires Enabled(s, a) && (a.Start? || a.Put? || a.Finish? || a.Acquire?) && a.t in Do(c, s, a).txs
    requires a.t in s.txs ==> Defers(s.txs[a.t])
    ensures Defers(Do(c, s, a).txs[a.t])
  {
  }

  lemma ReadDefers(c: Config, s: State, a: Action)
    requires Enabled(s, a) && !a.Seal? && a.t in s.txs && a.t in Do(c, s, a).txs && Defers(s.txs[a.t])
    requires a.ReadOwn? || a.ReadRecorded? || a.ProbeWriteTable? || a.ProbeReadTable? || a.ReadBase? || a.BatchGet?
    ensures Defers(Do(c, s, a).txs[a.t])
  {
    if a.BatchGet? {
      assert Do(c, s, a).txs[a.t] == AfterBatch(c, s, s.txs[a.t], a.step);
    }
  }

  lemma CheckDefers(c: Config, s: State, a: Action)
    requires Enabled(s, a) && !a.Seal? && a.t in s.txs && a.t in Do(c, s, a).txs && Defers(s.txs[a.t])
    requires a.PreCheck? || a.PreCheckDone? || a.Recheck? || a.RecheckDone?
    ensures Defers(Do(c, s, a).txs[a.t])
  {
  }

  lemma PutDefers(c: Config, s: State, a: Action)
    requires Enabled(s, a) && !a.Seal? && a.t in s.txs && Defers(s.txs[a.t]) && (a.PutRead? || a.PutWrite? || a.Append?)
    ensures a.t in Do(c, s, a).txs && Defers(Do(c, s, a).txs[a.t])
  {
  }

  lemma GateDefers(c: Config, s: State, t: nat)
    requires Enabled(s, Gate(t)) && t in Do(c, s, Gate(t)).txs
    ensures Defers(Do(c, s, Gate(t)).txs[t])
  {
    GateDo(c, s, t);
  }

  lemma OwnDefers(c: Config, s: State, a: Action)
    requires Enabled(s, a) && !a.Seal? && a.t in Do(c, s, a).txs
    requires a.t in s.txs ==> Defers(s.txs[a.t])
    ensures Defers(Do(c, s, a).txs[a.t])
  {
    if a.Start? || a.Put? || a.Finish? || a.Acquire? {
      RunDefers(c, s, a);
    } else if a.PreCheck? || a.PreCheckDone? || a.Recheck? || a.RecheckDone? {
      CheckDefers(c, s, a);
    } else if a.PutRead? || a.PutWrite? || a.Append? {
      PutDefers(c, s, a);
    } else if a.Gate? {
      GateDefers(c, s, a.t);
    } else if !a.AppendSpecial? && !a.Release? {
      ReadDefers(c, s, a);
    }
  }

  predicate AllDefer(s: State) {
    (forall t :: t in s.txs ==> Defers(s.txs[t])) && (forall i :: 0 <= i < |s.table| ==> !s.table[i].kind.Deferred?)
  }

  lemma StepDefers(c: Config, s: State, a: Action)
    requires Enabled(s, a) && AllDefer(s)
    ensures AllDefer(Do(c, s, a))
    ensures a.AppendSpecial? ==> s.txs[a.t].kind.Deferred?
  {
    var s' := Do(c, s, a);
    StepRecords(c, s, a);
    if a.Append? {
      assert s'.table == s.table + [Row(a.t, s.txs[a.t])];
    } else {
      assert |RowIds(s'.table)| == |RowIds(s.table)|;
    }
    forall t | t in s'.txs ensures Defers(s'.txs[t]) {
      if !a.Seal? && t == a.t {
        OwnDefers(c, s, a);
      } else {
        StepOther(c, s, a, t);
      }
    }
  }

  lemma StepOther(c: Config, s: State, a: Action, t: nat)
    requires Enabled(s, a) && t in Do(c, s, a).txs && (a.Seal? || a.t != t)
    ensures t in s.txs && Do(c, s, a).txs[t] == s.txs[t]
  {
    if a.Seal? {
    } else if Unlocked(a) {
      RunStepShape(c, s, a);
    } else {
      LockStepTxs(c, s, a);
    }
  }

  lemma {:induction false} RunDefersAll(c: Config, s: State, acts: seq<Action>)
    requires RunsFrom(c, s, acts) && AllDefer(s)
    ensures AllDefer(After(c, s, acts))
    decreases |acts|
  {
    if acts == [] {
    } else {
      StepDefers(c, s, acts[0]);
      RunDefersAll(c, Do(c, s, acts[0]), acts[1..]);
    }
  }

  /** In every run a first run of an iterator transaction gets no row, and only such runs are put off. */
  lemma FirstRunsPutOff(c: Config, acts: seq<Action>)
    requires RunsFrom(c, Init(), acts)
    ensures forall i :: 0 <= i < |After(c, Init(), acts).table| ==> !After(c, Init(), acts).table[i].kind.Deferred?
    ensures forall t :: Enabled(After(c, Init(), acts), AppendSpecial(t)) ==> After(c, Init(), acts).txs[t].kind.Deferred?
  {
    RunDefersAll(c, Init(), acts);
  }
}
