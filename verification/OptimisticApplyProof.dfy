/** What every interleaving of the optimistic apply keeps, and what follows from it. */
module OptimisticApplyProof {
  import opened Basics
  import opened TxLog
  import opened OptimisticApply

  /** The writes of the transaction that is putting its read-write set into the tables. */
  function Pending(s: State): map<Key, Value> {
    if s.lock.Some? && s.lock.value in s.txs && s.txs[s.lock.value].phase.Putting? then s.txs[s.lock.value].writes
    else map[]
  }

  /** Those of them that are not in the write table yet. */
  function Unput(s: State): set<Key> {
    if s.lock.Some? && s.lock.value in s.txs && s.txs[s.lock.value].phase.Putting?
    then s.txs[s.lock.value].phase.writesTodo
    else {}
  }

  /** The one cell the write table may hold for `k`. */
  function ExpectedCell(s: State, k: Key): Option<Cell> {
    if k in Pending(s) && k !in Unput(s) then Some(Cell(|s.table|, Pending(s)[k]))
    else if LastWriter(s.table, k) >= 0
    then Some(Cell(LastWriter(s.table, k), s.table[LastWriter(s.table, k)].writes[k]))
    else None
  }

  function CellAt(m: map<Key, Cell>, k: Key): Option<Cell> {
    if k in m then Some(m[k]) else None
  }

  ghost predicate WriteTableOk(s: State) {
    forall k :: CellAt(s.writeTable, k) == ExpectedCell(s, k)
  }

  /** A read-table value for a key that nobody wrote is the base value. */
  ghost predicate ReadTableOk(c: Config, s: State) {
    forall k :: k in s.readTable && LastWriter(s.table, k) < 0 && k !in Pending(s) ==>
      s.readTable[k].value == c.base(k)
  }

  /** `k` has been written, or is about to be, since a context that started at `e`. */
  predicate Touched(s: State, k: Key, e: nat) {
    LastWriter(s.table, k) >= e || k in Pending(s)
  }

  predicate LockOk(s: State) {
    && (s.lock.Some? ==> s.lock.value in s.txs && s.txs[s.lock.value].phase.HoldsLock())
    && forall t :: t in s.txs && s.txs[t].phase.HoldsLock() ==> s.lock == Some(t)
  }

  /** The keys a batch has missed are not read yet. */
  ghost predicate BatchUnread(x: Ctx) {
    forall k :: k in Missed(x) || k in Sought(x) ==> k !in x.writeSet && k !in x.readSet
  }

  /** Nobody wrote the keys a batch has missed, unless they were touched since. */
  ghost predicate BatchCurrent(s: State, x: Ctx) {
    forall k :: (k in Missed(x) || k in Sought(x)) && !Touched(s, k, x.execSeq) ==> LastWriter(s.table, k) < 0
  }

  /** The part of a context that no other transaction can change. */
  ghost predicate RecordOk(c: Config, x: Ctx) {
    && x.seen.Keys <= x.readSet.Keys
    && LogOn(x.seen, x.log)
    && x.writeSet == LastWrites(x.log)
    && (forall k :: k in x.readSet ==> (k in x.seen && x.readSet[k] == x.seen[k]) || k in x.writeSet)
    && ((x.phase.MissedWriteTable? || x.phase.MissedReadTable?) ==>
          x.phase.key !in x.writeSet && x.phase.key !in x.readSet)
    && (x.phase.Batch? ==> BatchUnread(x))
    && (x.phase.Finished() ==> x.writes == KeptWrites(c, x.success, x.writeSet))
    && (x.phase.Putting? ==> x.phase.writesTodo <= x.writes.Keys && x.phase.readsTodo <= CachedReads(c, x))
    && (x.phase.PreChecking? || x.phase.Rechecking? ==> x.phase.todo <= x.readSet.Keys)
    && (x.phase.Deferring? ==> x.kind.Deferred?)
    && (x.phase.Rechecking? ==> x.kind.Checked())
  }

  /** A context's reads are current unless their keys were touched since it started. */
  ghost predicate ViewOk(c: Config, s: State, x: Ctx) {
    && x.execSeq <= |s.table|
    && (forall k :: k in x.seen && !Touched(s, k, x.execSeq) ==> x.seen[k] == SerialValue(c.base, s.table, k))
    && ((x.phase.MissedWriteTable? || x.phase.MissedReadTable?) && !Touched(s, x.phase.key, x.execSeq) ==>
          LastWriter(s.table, x.phase.key) < 0)
    && (x.phase.Batch? ==> BatchCurrent(s, x))
    && (x.phase.Rechecking? ==>
          forall k :: k in x.readSet && k !in x.phase.todo ==> LastWriter(s.table, k) < x.execSeq)
    && (x.phase.Putting? && x.kind.Checked() ==>
          forall k :: k in x.seen ==> x.seen[k] == SerialValue(c.base, s.table, k))
  }

  ghost predicate Inv(c: Config, s: State) {
    && LockOk(s)
    && WriteTableOk(s)
    && ReadTableOk(c, s)
    && CtxsOk(c, s)
    && Serializable(c, s.table)
  }

  ghost predicate CtxsOk(c: Config, s: State) {
    forall t :: t in s.txs ==> RecordOk(c, s.txs[t]) && ViewOk(c, s, s.txs[t])
  }

  /** A step of a context that is not putting leaves everything but that context alone. */
  lemma LocalStep(c: Config, s: State, t: nat, x: Ctx)
    requires Inv(c, s)
    requires t in s.txs ==> s.txs[t].phase.HoldsLock() == x.phase.HoldsLock() && !s.txs[t].phase.Putting?
    requires t !in s.txs ==> !x.phase.HoldsLock()
    requires !x.phase.Putting?
    requires RecordOk(c, x) && ViewOk(c, s, x)
    ensures Inv(c, WithCtx(s, t, x))
  {
    var s' := WithCtx(s, t, x);
    assert Pending(s') == Pending(s) && Unput(s') == Unput(s);
    assert LockOk(s');
    SameShared(c, s, s');
  }

  /** A view stays good while the table stays the same and no pending write is withdrawn. */
  lemma ViewsCarryOver(c: Config, s: State, s': State, x: Ctx)
    requires s'.table == s.table && Pending(s).Keys <= Pending(s').Keys
    requires ViewOk(c, s, x)
    ensures ViewOk(c, s', x)
  {
    forall k ensures Touched(s, k, x.execSeq) ==> Touched(s', k, x.execSeq) {}
  }

  /** States with the same tables and the same pending writes agree on every shared fact. */
  lemma SameShared(c: Config, s: State, s': State)
    requires s'.table == s.table && s'.writeTable == s.writeTable && s'.readTable == s.readTable
    requires Pending(s') == Pending(s) && Unput(s') == Unput(s)
    ensures WriteTableOk(s) ==> WriteTableOk(s')
    ensures ReadTableOk(c, s) ==> ReadTableOk(c, s')
    ensures forall x :: ViewOk(c, s, x) ==> ViewOk(c, s', x)
  {
    if WriteTableOk(s) {
      forall k ensures CellAt(s'.writeTable, k) == ExpectedCell(s', k) {
        assert CellAt(s.writeTable, k) == ExpectedCell(s, k);
      }
    }
    forall x | ViewOk(c, s, x) ensures ViewOk(c, s', x) {
      ViewsCarryOver(c, s, s', x);
    }
  }

  /** A context that leaves without having put anything. */
  lemma Leaving(c: Config, s: State, t: nat, s': State)
    requires Inv(c, s) && t in s.txs && !s.txs[t].phase.Putting?
    requires s'.txs == s.txs - {t} && s'.table == s.table && s'.writeTable == s.writeTable && s'.readTable == s.readTable
    requires s'.lock == if s.txs[t].phase.HoldsLock() then None else s.lock
    ensures Inv(c, s')
  {
    assert Pending(s') == Pending(s) && Unput(s') == Unput(s);
    SameShared(c, s, s');
  }

  /** A value GetKey returns is current unless its key is touched. */
  lemma Observed(c: Config, s: State, x: Ctx, k: Key, v: Value)
    requires RecordOk(c, x) && ViewOk(c, s, x)
    requires x.phase.Running? || ((x.phase.MissedWriteTable? || x.phase.MissedReadTable?) && x.phase.key == k)
    requires k !in x.writeSet && k !in x.readSet
    requires !Touched(s, k, x.execSeq) ==> v == SerialValue(c.base, s.table, k)
    ensures RecordOk(c, Observe(x, k, v)) && ViewOk(c, s, Observe(x, k, v))
  {
    var y := Observe(x, k, v);
    assert Front(y.log) == x.log;
    LogOnGrows(x.seen, k, v, x.log);
  }

  lemma ReadOwnKeeps(c: Config, s: State, a: Action)
    requires Inv(c, s) && a.ReadOwn? && Enabled(s, a)
    ensures Inv(c, Do(c, s, a))
  {
    var t := a.t;
    var y := Do(c, s, a).txs[t];
    assert Front(y.log) == s.txs[t].log;
    LocalStep(c, s, t, y);
  }

  lemma ReadRecordedKeeps(c: Config, s: State, a: Action)
    requires Inv(c, s) && a.ReadRecorded? && Enabled(s, a)
    ensures Inv(c, Do(c, s, a))
  {
    var t := a.t;
    var y := Do(c, s, a).txs[t];
    assert Front(y.log) == s.txs[t].log;
    LocalStep(c, s, t, y);
  }

  /** What a context is after its probe of the write table. */
  function Asked(s: State, x: Ctx, k: Key): Ctx {
    if k in s.writeTable then Observe(x, k, s.writeTable[k].value) else x.(phase := MissedWriteTable(k))
  }

  lemma AskedOk(c: Config, s: State, x: Ctx, k: Key)
    requires WriteTableOk(s) && RecordOk(c, x) && ViewOk(c, s, x) && x.phase.Running? && k !in x.writeSet && k !in x.readSet
    ensures RecordOk(c, Asked(s, x, k)) && ViewOk(c, s, Asked(s, x, k))
  {
    assert CellAt(s.writeTable, k) == ExpectedCell(s, k);
    SerialValueByWriter(c.base, s.table, k);
    if k in s.writeTable {
      Observed(c, s, x, k, s.writeTable[k].value);
    }
  }

  lemma ProbeWriteTableKeeps(c: Config, s: State, a: Action)
    requires Inv(c, s) && a.ProbeWriteTable? && Enabled(s, a)
    ensures Inv(c, Do(c, s, a))
  {
    var t, x := a.t, s.txs[a.t];
    assert Do(c, s, a) == WithCtx(s, t, Asked(s, x, a.key));
    assert RecordOk(c, x) && ViewOk(c, s, x);
    AskedOk(c, s, x, a.key);
    LocalStep(c, s, t, Asked(s, x, a.key));
  }

  /** What a context is after its probe of the read table. */
  function Probed(s: State, x: Ctx): Ctx
    requires x.phase.MissedWriteTable?
  {
    var k := x.phase.key;
    if k in s.readTable then Observe(x, k, s.readTable[k].value) else x.(phase := MissedReadTable(k))
  }

  /** A read-table value found after the write table was missed is current unless its key is touched. */
  lemma CachedIsCurrent(c: Config, s: State, x: Ctx, k: Key)
    requires ReadTableOk(c, s) && ViewOk(c, s, x) && x.phase == MissedWriteTable(k) && k in s.readTable
    ensures !Touched(s, k, x.execSeq) ==> s.readTable[k].value == SerialValue(c.base, s.table, k)
  {
    SerialValueByWriter(c.base, s.table, k);
  }

  lemma ProbedOk(c: Config, s: State, x: Ctx)
    requires ReadTableOk(c, s) && RecordOk(c, x) && ViewOk(c, s, x) && x.phase.MissedWriteTable?
    ensures RecordOk(c, Probed(s, x)) && ViewOk(c, s, Probed(s, x))
  {
    var k := x.phase.key;
    if k in s.readTable {
      CachedIsCurrent(c, s, x, k);
      Observed(c, s, x, k, s.readTable[k].value);
    }
  }

  lemma ProbeReadTableKeeps(c: Config, s: State, a: Action)
    requires Inv(c, s) && a.ProbeReadTable? && Enabled(s, a)
    ensures Inv(c, Do(c, s, a))
  {
    var t := a.t;
    var x := s.txs[t];
    assert Do(c, s, a) == WithCtx(s, t, Probed(s, x));
    assert RecordOk(c, x) && ViewOk(c, s, x);
    ProbedOk(c, s, x);
    LocalStep(c, s, t, Probed(s, x));
  }

  lemma ReadBaseKeeps(c: Config, s: State, a: Action)
    requires Inv(c, s) && a.ReadBase? && Enabled(s, a)
    ensures Inv(c, Do(c, s, a))
  {
    var t := a.t;
    var k := s.txs[t].phase.key;
    SerialValueByWriter(c.base, s.table, k);
    Observed(c, s, s.txs[t], k, c.base(k));
    LocalStep(c, s, t, Do(c, s, a).txs[t]);
  }

  /** The same for a value found in a batch. */
  lemma ObservedInBatch(c: Config, s: State, x: Ctx, k: Key, v: Value, missed: set<Key>, below: set<Key>)
    requires RecordOk(c, x) && ViewOk(c, s, x) && (x.phase.Running? || x.phase.Batch?)
    requires k !in x.writeSet && k !in x.readSet
    requires forall j :: j in missed || j in below ==> j != k && (j in Missed(x) || j in Sought(x))
    requires !Touched(s, k, x.execSeq) ==> v == SerialValue(c.base, s.table, k)
    ensures var y := Observe(x, k, v).(phase := Batch(missed, below));
            RecordOk(c, y) && ViewOk(c, s, y)
  {
    InterruptedBatch(c, s, x);
    var y := Observe(x.(phase := Running), k, v);
    Observed(c, s, x.(phase := Running), k, v);
    BackToBatch(c, s, y, y.(phase := Batch(missed, below)));
  }

  lemma InterruptedBatch(c: Config, s: State, x: Ctx)
    requires RecordOk(c, x) && ViewOk(c, s, x) && (x.phase.Running? || x.phase.Batch?)
    ensures RecordOk(c, x.(phase := Running)) && ViewOk(c, s, x.(phase := Running))
  {
  }

  lemma BackToBatch(c: Config, s: State, x: Ctx, y: Ctx)
    requires RecordOk(c, x) && ViewOk(c, s, x) && x.phase.Running? && y.phase.Batch? && y == x.(phase := y.phase)
    requires BatchUnread(y) && BatchCurrent(s, y)
    ensures RecordOk(c, y) && ViewOk(c, s, y)
  {
  }

  lemma AskOk(c: Config, s: State, x: Ctx, k: Key)
    requires WriteTableOk(s) && RecordOk(c, x) && ViewOk(c, s, x) && CanBatch(x, Ask(k))
    ensures RecordOk(c, AfterBatch(c, s, x, Ask(k))) && ViewOk(c, s, AfterBatch(c, s, x, Ask(k)))
  {
    assert CellAt(s.writeTable, k) == ExpectedCell(s, k);
    SerialValueByWriter(c.base, s.table, k);
    if k in s.writeTable {
      ObservedInBatch(c, s, x, k, s.writeTable[k].value, Missed(x), Sought(x));
    }
  }

  lemma AskCacheOk(c: Config, s: State, x: Ctx, k: Key)
    requires ReadTableOk(c, s) && RecordOk(c, x) && ViewOk(c, s, x) && CanBatch(x, AskCache(k))
    ensures RecordOk(c, AfterBatch(c, s, x, AskCache(k))) && ViewOk(c, s, AfterBatch(c, s, x, AskCache(k)))
  {
    SerialValueByWriter(c.base, s.table, k);
    if k in s.readTable {
      ObservedInBatch(c, s, x, k, s.readTable[k].value, Missed(x) - {k}, Sought(x) - {k});
    }
  }

  lemma AskBelowOk(c: Config, s: State, x: Ctx, k: Key)
    requires RecordOk(c, x) && ViewOk(c, s, x) && CanBatch(x, AskBelow(k))
    ensures RecordOk(c, AfterBatch(c, s, x, AskBelow(k))) && ViewOk(c, s, AfterBatch(c, s, x, AskBelow(k)))
  {
    SerialValueByWriter(c.base, s.table, k);
    ObservedInBatch(c, s, x, k, c.base(k), Missed(x) - {k}, Sought(x) - {k});
  }

  lemma BatchOk(c: Config, s: State, x: Ctx, step: BatchStep)
    requires WriteTableOk(s) && ReadTableOk(c, s) && RecordOk(c, x) && ViewOk(c, s, x) && CanBatch(x, step)
    ensures RecordOk(c, AfterBatch(c, s, x, step)) && ViewOk(c, s, AfterBatch(c, s, x, step))
  {
    match step {
      case Ask(k) => AskOk(c, s, x, k);
      case AskCache(k) => AskCacheOk(c, s, x, k);
      case AskBelow(k) => AskBelowOk(c, s, x, k);
      case Return =>
    }
  }

  lemma BatchGetKeeps(c: Config, s: State, a: Action)
    requires Inv(c, s) && a.BatchGet? && Enabled(s, a)
    ensures Inv(c, Do(c, s, a))
  {
    var t := a.t;
    var x := s.txs[t];
    assert RecordOk(c, x) && ViewOk(c, s, x);
    BatchOk(c, s, x, a.step);
    LocalStep(c, s, t, AfterBatch(c, s, x, a.step));
  }

  lemma PutKeeps(c: Config, s: State, a: Action)
    requires Inv(c, s) && a.Put? && Enabled(s, a)
    ensures Inv(c, Do(c, s, a))
  {
    var t := a.t;
    var y := Do(c, s, a).txs[t];
    assert Front(y.log) == s.txs[t].log;
    LocalStep(c, s, t, y);
  }

  lemma StartKeeps(c: Config, s: State, a: Action)
    requires Inv(c, s) && a.Start? && Enabled(s, a)
    ensures Inv(c, Do(c, s, a))
  {
    var t := a.t;
    LocalStep(c, s, t, Do(c, s, a).txs[t]);
  }

  lemma FinishKeeps(c: Config, s: State, a: Action)
    requires Inv(c, s) && a.Finish? && Enabled(s, a)
    ensures Inv(c, Do(c, s, a))
  {
    var t := a.t;
    if s.txs[t].kind.Normal? && s.sealed {
      Leaving(c, s, t, Do(c, s, a));
    } else {
      LocalStep(c, s, t, Do(c, s, a).txs[t]);
    }
  }

  /** A context on its way to the lock. */
  lemma Rephased(c: Config, s: State, x: Ctx, p: Phase)
    requires RecordOk(c, x) && ViewOk(c, s, x) && x.phase.Finished()
    requires p.Waiting? || p.Locked? || (p.PreChecking? && p.todo <= x.readSet.Keys)
    ensures RecordOk(c, x.(phase := p)) && ViewOk(c, s, x.(phase := p))
  {
  }

  lemma PreCheckKeeps(c: Config, s: State, a: Action)
    requires Inv(c, s) && a.PreCheck? && Enabled(s, a)
    ensures Inv(c, Do(c, s, a))
  {
    var t, k := a.t, a.key;
    if Conflicts(s, s.txs[t], k) {
      Leaving(c, s, t, Do(c, s, a));
    } else {
      var x, p := s.txs[t], PreChecking(s.txs[t].phase.todo - {k});
      assert RecordOk(c, x) && ViewOk(c, s, x);
      Rephased(c, s, x, p);
      LocalStep(c, s, t, x.(phase := p));
    }
  }

  lemma PreCheckDoneKeeps(c: Config, s: State, a: Action)
    requires Inv(c, s) && a.PreCheckDone? && Enabled(s, a)
    ensures Inv(c, Do(c, s, a))
  {
    var t := a.t;
    LocalStep(c, s, t, Do(c, s, a).txs[t]);
  }

  /** Taking the free lock changes nothing but the phase. */
  lemma Locking(c: Config, s: State, t: nat, s': State)
    requires Inv(c, s) && t in s.txs && s.txs[t].phase.Waiting? && s.lock.None?
    requires s' == s.(txs := s.txs[t := s.txs[t].(phase := Locked)], lock := Some(t))
    ensures Inv(c, s')
  {
    assert Pending(s') == Pending(s) && Unput(s') == Unput(s);
    SameShared(c, s, s');
    forall u | u in s'.txs ensures RecordOk(c, s'.txs[u]) && ViewOk(c, s', s'.txs[u]) {
      assert RecordOk(c, s.txs[u]) && ViewOk(c, s, s.txs[u]);
      if u == t {
        Rephased(c, s, s.txs[t], Locked);
      }
      assert ViewOk(c, s, s'.txs[u]);
    }
  }

  lemma AcquireKeeps(c: Config, s: State, a: Action)
    requires Inv(c, s) && a.Acquire? && Enabled(s, a)
    ensures Inv(c, Do(c, s, a))
  {
    Locking(c, s, a.t, Do(c, s, a));
  }

  lemma StartPuttingTable(s: State, s': State)
    requires WriteTableOk(s) && Pending(s) == map[]
    requires s'.table == s.table && s'.writeTable == s.writeTable && Unput(s') == Pending(s').Keys
    ensures WriteTableOk(s')
  {
    forall k ensures CellAt(s'.writeTable, k) == ExpectedCell(s', k) {
      assert CellAt(s.writeTable, k) == ExpectedCell(s, k);
    }
  }

  lemma StartPuttingView(c: Config, s: State, s': State, x: Ctx)
    requires RecordOk(c, x) && ViewOk(c, s, x) && (x.phase.Locked? || x.phase.Rechecking?)
    requires x.kind.Checked() ==> forall k :: k in x.seen ==> LastWriter(s.table, k) < x.execSeq
    requires Pending(s) == map[] && s'.table == s.table
    ensures RecordOk(c, StartPutting(c, x)) && ViewOk(c, s', StartPutting(c, x))
  {
    forall k | k in x.seen && x.kind.Checked() ensures x.seen[k] == SerialValue(c.base, s.table, k) {
      assert !Touched(s, k, x.execSeq);
    }
    ViewsCarryOver(c, s, s', x);
  }

  /** Starting to put makes the writes pending; the tables do not change yet. */
  lemma StartPuttingCtxs(c: Config, s: State, t: nat, s': State)
    requires CtxsOk(c, s) && t in s.txs && (s.txs[t].phase.Locked? || s.txs[t].phase.Rechecking?)
    requires s.txs[t].kind.Checked() ==> forall k :: k in s.txs[t].seen ==> LastWriter(s.table, k) < s.txs[t].execSeq
    requires s'.txs == s.txs[t := StartPutting(c, s.txs[t])] && s'.table == s.table && Pending(s) == map[]
    ensures CtxsOk(c, s')
  {
    forall u | u in s'.txs ensures RecordOk(c, s'.txs[u]) && ViewOk(c, s', s'.txs[u]) {
      if u == t {
        StartPuttingView(c, s, s', s.txs[t]);
      } else {
        ViewsCarryOver(c, s, s', s.txs[u]);
      }
    }
  }

  lemma StartPuttingKeeps(c: Config, s: State, t: nat)
    requires Inv(c, s) && t in s.txs && (s.txs[t].phase.Locked? || s.txs[t].phase.Rechecking?)
    requires s.txs[t].kind.Checked() ==> forall k :: k in s.txs[t].seen ==> LastWriter(s.table, k) < s.txs[t].execSeq
    ensures Inv(c, WithCtx(s, t, StartPutting(c, s.txs[t])))
  {
    var x, s' := s.txs[t], WithCtx(s, t, StartPutting(c, s.txs[t]));
    assert Pending(s) == map[] && Pending(s') == x.writes && Unput(s') == x.writes.Keys;
    StartPuttingTable(s, s');
    StartPuttingCtxs(c, s, t, s');
  }

  lemma GateKeeps(c: Config, s: State, a: Action)
    requires Inv(c, s) && a.Gate? && Enabled(s, a)
    ensures Inv(c, Do(c, s, a))
  {
    var t := a.t;
    var x := s.txs[t];
    if x.kind.Gated() && s.sealed {
      Leaving(c, s, t, Do(c, s, a));
    } else if x.kind.Deferred? || (x.kind.Checked() && x.execSeq < |s.table|) {
      LocalStep(c, s, t, Do(c, s, a).txs[t]);
    } else {
      StartPuttingKeeps(c, s, t);
    }
  }

  lemma AppendSpecialKeeps(c: Config, s: State, a: Action)
    requires Inv(c, s) && a.AppendSpecial? && Enabled(s, a)
    ensures Inv(c, Do(c, s, a))
  {
    var t := a.t;
    Leaving(c, s, t, Do(c, s, a));
  }

  lemma RecheckedOk(c: Config, s: State, x: Ctx, k: Key)
    requires WriteTableOk(s) && RecordOk(c, x) && ViewOk(c, s, x) && x.phase.Rechecking?
    requires k !in Pending(s) && !Conflicts(s, x, k)
    ensures var y := x.(phase := Rechecking(x.phase.todo - {k})); RecordOk(c, y) && ViewOk(c, s, y)
  {
    assert CellAt(s.writeTable, k) == ExpectedCell(s, k);
  }

  lemma RecheckKeeps(c: Config, s: State, a: Action)
    requires Inv(c, s) && a.Recheck? && Enabled(s, a)
    ensures Inv(c, Do(c, s, a))
  {
    var t, k := a.t, a.key;
    if Conflicts(s, s.txs[t], k) {
      Leaving(c, s, t, Do(c, s, a));
    } else {
      var x, p := s.txs[t], Rechecking(s.txs[t].phase.todo - {k});
      assert RecordOk(c, x) && ViewOk(c, s, x) && s.lock == Some(t);
      RecheckedOk(c, s, x, k);
      LocalStep(c, s, t, x.(phase := p));
    }
  }

  lemma RecheckDoneKeeps(c: Config, s: State, a: Action)
    requires Inv(c, s) && a.RecheckDone? && Enabled(s, a)
    ensures Inv(c, Do(c, s, a))
  {
    var t := a.t;
    StartPuttingKeeps(c, s, t);
  }

  /** The context that is putting only ticks keys off. */
  predicate TicksOff(x: Ctx, x': Ctx) {
    && x.phase.Putting? && x'.phase.Putting?
    && x' == x.(phase := x'.phase)
    && x'.phase.readsTodo <= x.phase.readsTodo && x'.phase.writesTodo <= x.phase.writesTodo
  }

  lemma TickedOffCtx(c: Config, s: State, x: Ctx, x': Ctx, s': State)
    requires TicksOff(x, x') && RecordOk(c, x) && ViewOk(c, s, x)
    requires s'.table == s.table && Pending(s) == Pending(s')
    ensures RecordOk(c, x') && ViewOk(c, s', x')
  {
    ViewsCarryOver(c, s, s', x);
  }

  lemma PuttingCtxs(c: Config, s: State, t: nat, x': Ctx, s': State)
    requires LockOk(s) && CtxsOk(c, s) && t in s.txs && TicksOff(s.txs[t], x')
    requires s'.txs == s.txs[t := x'] && s'.table == s.table && s'.lock == s.lock
    ensures LockOk(s') && CtxsOk(c, s')
    ensures Pending(s) == Pending(s') == x'.writes
    ensures Unput(s) == s.txs[t].phase.writesTodo && Unput(s') == x'.phase.writesTodo
  {
    forall u | u in s'.txs ensures RecordOk(c, s'.txs[u]) && ViewOk(c, s', s'.txs[u]) {
      if u == t {
        TickedOffCtx(c, s, s.txs[t], x', s');
      } else {
        ViewsCarryOver(c, s, s', s.txs[u]);
      }
    }
  }

  /** A read that is put into the read table is the base value, or its key is written. */
  lemma CachedReadIsBase(c: Config, s: State, x: Ctx, k: Key)
    requires RecordOk(c, x) && ViewOk(c, s, x) && x.phase.Putting? && x.success && k in x.readSet
    requires Pending(s) == x.writes
    ensures LastWriter(s.table, k) < 0 && k !in Pending(s) ==> x.readSet[k] == c.base(k)
  {
    if LastWriter(s.table, k) < 0 && k !in Pending(s) {
      assert !Touched(s, k, x.execSeq);
      SerialValueByWriter(c.base, s.table, k);
    }
  }

  lemma PutReadTables(c: Config, s: State, s': State, k: Key, v: Value)
    requires WriteTableOk(s) && ReadTableOk(c, s)
    requires LastWriter(s.table, k) < 0 && k !in Pending(s) ==> v == c.base(k)
    requires s'.table == s.table && s'.writeTable == s.writeTable && s'.readTable == s.readTable[k := Cell(|s.table|, v)]
    requires Pending(s') == Pending(s) && Unput(s') == Unput(s)
    ensures WriteTableOk(s') && ReadTableOk(c, s')
  {
    forall j ensures CellAt(s'.writeTable, j) == ExpectedCell(s', j) {
      assert CellAt(s.writeTable, j) == ExpectedCell(s, j);
    }
  }

  lemma PutReadKeeps(c: Config, s: State, a: Action)
    requires Inv(c, s) && a.PutRead? && Enabled(s, a)
    requires s.txs[a.t].success
    ensures Inv(c, Do(c, s, a))
  {
    var t, k := a.t, a.key;
    var s' := Do(c, s, a);
    PuttingCtxs(c, s, t, s'.txs[t], s');
    CachedReadIsBase(c, s, s.txs[t], k);
    PutReadTables(c, s, s', k, s.txs[t].readSet[k]);
  }

  lemma PutWriteTable(s: State, s': State, k: Key, v: Value)
    requires WriteTableOk(s) && k in Unput(s) && k in Pending(s) && Pending(s)[k] == v
    requires s'.table == s.table && s'.writeTable == s.writeTable[k := Cell(|s.table|, v)]
    requires Pending(s') == Pending(s) && Unput(s') == Unput(s) - {k}
    ensures WriteTableOk(s')
  {
    forall j ensures CellAt(s'.writeTable, j) == ExpectedCell(s', j) {
      assert CellAt(s.writeTable, j) == ExpectedCell(s, j);
    }
  }

  lemma PutWriteKeeps(c: Config, s: State, a: Action)
    requires Inv(c, s) && a.PutWrite? && Enabled(s, a)
    ensures Inv(c, Do(c, s, a))
  {
    var t, k := a.t, a.key;
    var s' := Do(c, s, a);
    PuttingCtxs(c, s, t, s'.txs[t], s');
    PutWriteTable(s, s', k, s.txs[t].writes[k]);
  }

  lemma AppendedWriter(s: seq<Entry>, e: Entry, k: Key)
    ensures LastWriter(s + [e], k) == if k in e.writes then |s| else LastWriter(s, k)
  {
    assert Front(s + [e]) == s;
  }

  lemma AppendedRow(c: Config, s: State, a: Action)
    requires Inv(c, s) && a.Append? && Enabled(s, a)
    ensures Serializable(c, s.table + [Row(a.t, s.txs[a.t])])
  {
    var t := a.t;
    var x, table := s.txs[t], s.table + [Row(t, s.txs[t])];
    assert RecordOk(c, x) && ViewOk(c, s, x);
    forall i | 0 <= i < |s.table| ensures table[..i] == s.table[..i] {}
    if x.kind.Checked() {
      LogOnIsSerial(c.base, s.table, x.seen, x.log);
      assert table[..|s.table|] == s.table;
    }
  }

  lemma AppendedView(c: Config, s: State, s': State, e: Entry, x: Ctx)
    requires s'.table == s.table + [e] && Pending(s) == e.writes && Pending(s') == map[]
    requires ViewOk(c, s, x) && !x.phase.Rechecking? && !x.phase.Putting?
    ensures ViewOk(c, s', x)
  {
    assert Front(s'.table) == s.table;
    forall k ensures Touched(s, k, x.execSeq) ==> Touched(s', k, x.execSeq) {
      AppendedWriter(s.table, e, k);
    }
  }

  lemma AppendedCtxs(c: Config, s: State, t: nat, s': State)
    requires LockOk(s) && CtxsOk(c, s) && t in s.txs && s.txs[t].phase.Putting?
    requires s'.txs == s.txs[t := s.txs[t].(phase := Stored)] && s'.lock == s.lock
    requires s'.table == s.table + [Row(t, s.txs[t])]
    ensures LockOk(s') && CtxsOk(c, s')
  {
    var e := Row(t, s.txs[t]);
    forall u | u in s'.txs ensures RecordOk(c, s'.txs[u]) && ViewOk(c, s', s'.txs[u]) {
      assert RecordOk(c, s.txs[u]) && ViewOk(c, s, s.txs[u]);
      assert ViewOk(c, s, s'.txs[u]);
      AppendedView(c, s, s', e, s'.txs[u]);
    }
  }

  lemma AppendedTables(c: Config, s: State, s': State, e: Entry)
    requires WriteTableOk(s) && ReadTableOk(c, s)
    requires Pending(s) == e.writes && Unput(s) == {} && Pending(s') == map[] && Unput(s') == {}
    requires s'.table == s.table + [e] && s'.writeTable == s.writeTable && s'.readTable == s.readTable
    ensures WriteTableOk(s') && ReadTableOk(c, s')
  {
    forall k ensures CellAt(s'.writeTable, k) == ExpectedCell(s', k)
             ensures k in s'.readTable && LastWriter(s'.table, k) < 0 ==> s'.readTable[k].value == c.base(k)
    {
      assert CellAt(s.writeTable, k) == ExpectedCell(s, k);
      AppendedWriter(s.table, e, k);
    }
  }

  /** The appended row becomes the last writer of the keys it wrote. */
  lemma AppendKeeps(c: Config, s: State, a: Action)
    requires Inv(c, s) && a.Append? && Enabled(s, a)
    ensures Inv(c, Do(c, s, a))
  {
    var t := a.t;
    var s' := Do(c, s, a);
    AppendedRow(c, s, a);
    AppendedTables(c, s, s', Row(t, s.txs[t]));
    AppendedCtxs(c, s, t, s');
  }

  lemma ReleaseKeeps(c: Config, s: State, a: Action)
    requires Inv(c, s) && a.Release? && Enabled(s, a)
    ensures Inv(c, Do(c, s, a))
  {
    var t := a.t;
    Leaving(c, s, t, Do(c, s, a));
  }

  lemma SealKeeps(c: Config, s: State)
    requires Inv(c, s)
    ensures Inv(c, Do(c, s, Seal))
  {
    var s' := Do(c, s, Seal);
    assert Pending(s') == Pending(s) && Unput(s') == Unput(s);
    SameShared(c, s, s');
  }
}
