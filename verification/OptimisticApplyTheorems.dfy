/** Theorems about whole runs of the optimistic apply. */
module OptimisticApplyTheorems {
  import opened Basics
  import opened TxLog
  import opened OptimisticApply
  import opened OptimisticApplyProof

  /** No failed run's reads can reach the read table. */
  predicate Trusting(c: Config, s: State) {
    c.version >= READS_OF_FAILED_RUNS_DROPPED || forall t :: t in s.txs ==> s.txs[t].success
  }

  /** The actions of a context that does not hold the lock. */
  predicate Unlocked(a: Action) {
    || a.Start? || a.ReadOwn? || a.ReadRecorded? || a.ProbeWriteTable? || a.ProbeReadTable? || a.ReadBase? || a.BatchGet? || a.Put?
    || a.Finish? || a.PreCheck? || a.PreCheckDone?
  }

  lemma ReadStepKeeps(c: Config, s: State, a: Action)
    requires Inv(c, s) && Enabled(s, a)
    requires a.ReadOwn? || a.ReadRecorded? || a.ProbeWriteTable? || a.ProbeReadTable? || a.ReadBase? || a.BatchGet?
    ensures Inv(c, Do(c, s, a))
  {
    if a.ReadOwn? {
      ReadOwnKeeps(c, s, a);
    } else if a.ReadRecorded? {
      ReadRecordedKeeps(c, s, a);
    } else if a.ProbeWriteTable? {
      ProbeWriteTableKeeps(c, s, a);
    } else if a.ProbeReadTable? {
      ProbeReadTableKeeps(c, s, a);
    } else if a.ReadBase? {
      ReadBaseKeeps(c, s, a);
    } else {
      BatchGetKeeps(c, s, a);
    }
  }

  lemma OtherStepKeeps(c: Config, s: State, a: Action)
    requires Inv(c, s) && Enabled(s, a)
    requires a.Start? || a.Put? || a.Finish? || a.PreCheck? || a.PreCheckDone?
    ensures Inv(c, Do(c, s, a))
  {
    if a.Start? {
      StartKeeps(c, s, a);
    } else if a.Put? {
      PutKeeps(c, s, a);
    } else if a.Finish? {
      FinishKeeps(c, s, a);
    } else if a.PreCheck? {
      PreCheckKeeps(c, s, a);
    } else {
      PreCheckDoneKeeps(c, s, a);
    }
  }

  lemma PutStepKeeps(c: Config, s: State, a: Action)
    requires Inv(c, s) && Enabled(s, a) && (a.PutRead? || a.PutWrite? || a.Append?) && Trusting(c, s)
    ensures Inv(c, Do(c, s, a))
  {
    if a.PutRead? {
      assert RecordOk(c, s.txs[a.t]);
      PutReadKeeps(c, s, a);
    } else if a.PutWrite? {
      PutWriteKeeps(c, s, a);
    } else {
      AppendKeeps(c, s, a);
    }
  }

  lemma CheckStepKeeps(c: Config, s: State, a: Action)
    requires Inv(c, s) && Enabled(s, a) && (a.Acquire? || a.Gate? || a.AppendSpecial? || a.Recheck? || a.RecheckDone?)
    ensures Inv(c, Do(c, s, a))
  {
    if a.Acquire? {
      AcquireKeeps(c, s, a);
    } else if a.Gate? {
      GateKeeps(c, s, a);
    } else if a.AppendSpecial? {
      AppendSpecialKeeps(c, s, a);
    } else if a.Recheck? {
      RecheckKeeps(c, s, a);
    } else {
      RecheckDoneKeeps(c, s, a);
    }
  }

  lemma LockStepKeeps(c: Config, s: State, a: Action)
    requires Inv(c, s) && Enabled(s, a) && !Unlocked(a) && Trusting(c, s)
    ensures Inv(c, Do(c, s, a))
  {
    if a.PutRead? || a.PutWrite? || a.Append? {
      PutStepKeeps(c, s, a);
    } else if a.Release? {
      ReleaseKeeps(c, s, a);
    } else if a.Seal? {
      SealKeeps(c, s);
    } else {
      CheckStepKeeps(c, s, a);
    }
  }

  lemma StepKeeps(c: Config, s: State, a: Action)
    requires Inv(c, s) && Enabled(s, a) && Trusting(c, s)
    ensures Inv(c, Do(c, s, a))
  {
    if a.Start? || a.Put? || a.Finish? || a.PreCheck? || a.PreCheckDone? {
      OtherStepKeeps(c, s, a);
    } else if Unlocked(a) {
      ReadStepKeeps(c, s, a);
    } else {
      LockStepKeeps(c, s, a);
    }
  }

  lemma StepTrusting(c: Config, s: State, a: Action)
    requires Enabled(s, a) && Trusting(c, s)
    requires c.version >= READS_OF_FAILED_RUNS_DROPPED || (a.Finish? ==> a.success)
    ensures Trusting(c, Do(c, s, a))
  {
    if Unlocked(a) {
      RunStepShape(c, s, a);
    } else if !a.Seal? {
      LockStepTxs(c, s, a);
    }
  }

  lemma {:induction false} RunKeeps(c: Config, s: State, acts: seq<Action>)
    requires Inv(c, s) && Trusting(c, s) && RunsFrom(c, s, acts)
    requires c.version >= READS_OF_FAILED_RUNS_DROPPED || NoFailure(acts)
    ensures Inv(c, After(c, s, acts))
    decreases |acts|
  {
    if acts == [] {
    } else {
      StepKeeps(c, s, acts[0]);
      StepTrusting(c, s, acts[0]);
      RunKeeps(c, Do(c, s, acts[0]), acts[1..]);
    }
  }

  lemma InitOk(c: Config)
    ensures Inv(c, Init()) && Trusting(c, Init())
  {
    forall k ensures CellAt(Init().writeTable, k) == ExpectedCell(Init(), k) {}
  }

  /** In every interleaving, every accepted normal or SZ transaction ran as if alone after the rows before it,
      and GetKey answers the serial value of every key whose writer is not half-way through its puts. */
  lemma Serializability(c: Config, acts: seq<Action>)
    requires RunsFrom(c, Init(), acts)
    requires c.version >= READS_OF_FAILED_RUNS_DROPPED || NoFailure(acts)
    ensures var s := After(c, Init(), acts);
            && Serializable(c, s.table)
            && (forall k :: k !in Pending(s) ==> GetKey(c, s, k) == SerialValue(c.base, s.table, k))
            && (s.lock.None? ==> forall k :: GetKey(c, s, k) == SerialValue(c.base, s.table, k))
  {
    InitOk(c);
    RunKeeps(c, Init(), acts);
    var s := After(c, Init(), acts);
    forall k | k !in Pending(s) ensures GetKey(c, s, k) == SerialValue(c.base, s.table, k) {
      assert CellAt(s.writeTable, k) == ExpectedCell(s, k);
      SerialValueByWriter(c.base, s.table, k);
    }
  }

  /** The holder of the lock has passed the seal gate and will append. */
  predicate PastGate(x: Ctx) {
    x.phase.Deferring? || ((x.phase.Rechecking? || x.phase.Putting?) && x.kind.Gated())
  }

  function InFlight(s: State): nat {
    if s.lock.Some? && s.lock.value in s.txs && PastGate(s.txs[s.lock.value]) then 1 else 0
  }

  /** `a` appends a seal-gated transaction. */
  predicate GatedAppend(s: State, a: Action)
    requires Enabled(s, a)
  {
    a.AppendSpecial? || (a.Append? && (s.txs[a.t].kind.Normal? || s.txs[a.t].kind.SZ?))
  }

  /** How many seal-gated transactions a run appends. */
  function GatedAppends(c: Config, s: State, acts: seq<Action>): nat
    requires RunsFrom(c, s, acts)
    decreases |acts|
  {
    if acts == [] then 0
    else (if GatedAppend(s, acts[0]) then 1 else 0) + GatedAppends(c, Do(c, s, acts[0]), acts[1..])
  }

  /** A step of transaction `t` outside the lock changes only its own context. */
  predicate Private(s: State, s': State, t: nat) {
    && s' == s.(txs := s'.txs)
    && (t in s.txs ==> !s.txs[t].phase.HoldsLock())
    && (s'.txs == s.txs - {t} || (t in s'.txs && s'.txs == s.txs[t := s'.txs[t]] && !s'.txs[t].phase.HoldsLock()))
  }

  lemma ReadStepShape(c: Config, s: State, a: Action)
    requires Enabled(s, a)
    requires a.ReadOwn? || a.ReadRecorded? || a.ProbeWriteTable? || a.ProbeReadTable? || a.ReadBase?
    ensures Private(s, Do(c, s, a), a.t)
    ensures a.t in Do(c, s, a).txs ==> Do(c, s, a).txs[a.t].success == s.txs[a.t].success
  {
  }

  lemma BatchStepShape(c: Config, s: State, t: nat, step: BatchStep)
    requires Enabled(s, BatchGet(t, step))
    ensures var s' := Do(c, s, BatchGet(t, step));
            Private(s, s', t) && t in s'.txs && s'.txs[t].success == s.txs[t].success
  {
  }

  lemma OtherStepShape(c: Config, s: State, a: Action)
    requires Enabled(s, a) && (a.Start? || a.Put? || a.Finish? || a.PreCheck? || a.PreCheckDone?)
    ensures Private(s, Do(c, s, a), a.t)
    ensures a.t in Do(c, s, a).txs ==>
              Do(c, s, a).txs[a.t].success ==
              if a.Start? then true else if a.Finish? then a.success else s.txs[a.t].success
  {
  }

  lemma RunStepShape(c: Config, s: State, a: Action)
    requires Enabled(s, a) && Unlocked(a)
    ensures Private(s, Do(c, s, a), a.t)
    ensures a.t in Do(c, s, a).txs ==>
              Do(c, s, a).txs[a.t].success ==
              if a.Start? then true else if a.Finish? then a.success else s.txs[a.t].success
  {
    if a.Start? || a.Put? || a.Finish? || a.PreCheck? || a.PreCheckDone? {
      OtherStepShape(c, s, a);
    } else if a.BatchGet? {
      BatchStepShape(c, s, a.t, a.step);
    } else {
      ReadStepShape(c, s, a);
    }
  }

  /** With the lock a step changes its own context or removes it. */
  lemma LockStepTxs(c: Config, s: State, a: Action)
    requires Enabled(s, a) && !Unlocked(a) && !a.Seal?
    ensures var s' := Do(c, s, a);
            && a.t in s.txs
            && (s'.txs == s.txs - {a.t} ||
                (a.t in s'.txs && s'.txs == s.txs[a.t := s'.txs[a.t]] && s'.txs[a.t].success == s.txs[a.t].success))
  {
  }

  /** The lock after a step under it: kept by a context that stays, else free. */
  predicate LockFollows(s: State, s': State, t: nat) {
    && (s.lock == Some(t) || s.lock.None?)
    && (t in s'.txs ==> s'.txs[t].phase.HoldsLock())
    && s'.lock == (if t in s'.txs then Some(t) else None)
  }

  lemma AcquireStepLock(c: Config, s: State, a: Action)
    requires LockOk(s) && Enabled(s, a) && (a.Acquire? || a.AppendSpecial?)
    ensures LockFollows(s, Do(c, s, a), a.t)
  {
  }

  lemma GateShut(c: Config, s: State, t: nat)
    requires Enabled(s, Gate(t)) && s.txs[t].kind.Gated() && s.sealed
    ensures Do(c, s, Gate(t)) == Without(s, t).(lock := None)
  {
  }

  lemma GateEntered(c: Config, s: State, t: nat)
    requires Enabled(s, Gate(t)) && !(s.txs[t].kind.Gated() && s.sealed)
    ensures var s' := Do(c, s, Gate(t)); t in s'.txs && s' == WithCtx(s, t, s'.txs[t]) && s'.txs[t].phase.HoldsLock()
  {
  }

  lemma GateStepLock(c: Config, s: State, t: nat)
    requires LockOk(s) && Enabled(s, Gate(t))
    ensures LockFollows(s, Do(c, s, Gate(t)), t)
  {
    assert s.lock == Some(t);
    if s.txs[t].kind.Gated() && s.sealed {
      GateShut(c, s, t);
    } else {
      GateEntered(c, s, t);
    }
  }

  lemma RecheckStepLock(c: Config, s: State, a: Action)
    requires LockOk(s) && Enabled(s, a) && (a.Recheck? || a.RecheckDone?)
    ensures LockFollows(s, Do(c, s, a), a.t)
  {
  }

  lemma PutStepLock(c: Config, s: State, a: Action)
    requires LockOk(s) && Enabled(s, a) && (a.PutRead? || a.PutWrite?)
    ensures LockFollows(s, Do(c, s, a), a.t)
  {
  }

  lemma AppendStepLock(c: Config, s: State, a: Action)
    requires LockOk(s) && Enabled(s, a) && (a.Append? || a.Release?)
    ensures LockFollows(s, Do(c, s, a), a.t)
  {
  }

  /** With the lock a step keeps it, or frees it and leaves. */
  lemma LockStepShape(c: Config, s: State, a: Action)
    requires LockOk(s) && Enabled(s, a) && !Unlocked(a) && !a.Seal?
    ensures var s' := Do(c, s, a);
            && a.t in s.txs && LockFollows(s, s', a.t)
            && (s'.txs == s.txs - {a.t} || (a.t in s'.txs && s'.txs == s.txs[a.t := s'.txs[a.t]]))
  {
    LockStepTxs(c, s, a);
    if a.Acquire? || a.AppendSpecial? {
      AcquireStepLock(c, s, a);
    } else if a.Gate? {
      GateStepLock(c, s, a.t);
    } else if a.Recheck? || a.RecheckDone? {
      RecheckStepLock(c, s, a);
    } else if a.PutRead? || a.PutWrite? {
      PutStepLock(c, s, a);
    } else {
      AppendStepLock(c, s, a);
    }
  }

  lemma StepLockOk(c: Config, s: State, a: Action)
    requires LockOk(s) && Enabled(s, a)
    ensures LockOk(Do(c, s, a))
  {
    if Unlocked(a) {
      RunStepShape(c, s, a);
    } else if !a.Seal? {
      LockStepShape(c, s, a);
    }
  }

  lemma SealedGate(c: Config, s: State, a: Action)
    requires LockOk(s) && s.sealed && Enabled(s, a) && (a.Acquire? || a.Gate?)
    ensures Do(c, s, a).sealed
    ensures (if GatedAppend(s, a) then 1 else 0) + InFlight(Do(c, s, a)) <= InFlight(s)
  {
  }

  lemma SealedCheck(c: Config, s: State, a: Action)
    requires LockOk(s) && s.sealed && Enabled(s, a) && (a.AppendSpecial? || a.Recheck? || a.RecheckDone?)
    ensures Do(c, s, a).sealed
    ensures (if GatedAppend(s, a) then 1 else 0) + InFlight(Do(c, s, a)) <= InFlight(s)
  {
  }

  /** Once sealed, only the transaction that already passed the gate can still append. */
  lemma SealedStep(c: Config, s: State, a: Action)
    requires LockOk(s) && s.sealed && Enabled(s, a)
    ensures Do(c, s, a).sealed
    ensures (if GatedAppend(s, a) then 1 else 0) + InFlight(Do(c, s, a)) <= InFlight(s)
  {
    if Unlocked(a) {
      RunStepShape(c, s, a);
    } else if a.Acquire? || a.Gate? {
      SealedGate(c, s, a);
    } else if a.AppendSpecial? || a.Recheck? || a.RecheckDone? {
      SealedCheck(c, s, a);
    }
  }

  lemma {:induction false} SealedRun(c: Config, s: State, acts: seq<Action>)
    requires LockOk(s) && s.sealed && RunsFrom(c, s, acts)
    ensures GatedAppends(c, s, acts) <= InFlight(s)
    decreases |acts|
  {
    if acts == [] {
    } else {
      StepLockOk(c, s, acts[0]);
      SealedStep(c, s, acts[0]);
      SealedRun(c, Do(c, s, acts[0]), acts[1..]);
    }
  }

  lemma {:induction false} RunLockOk(c: Config, s: State, acts: seq<Action>)
    requires LockOk(s) && RunsFrom(c, s, acts)
    ensures LockOk(After(c, s, acts))
    decreases |acts|
  {
    if acts == [] {
    } else {
      StepLockOk(c, s, acts[0]);
      RunLockOk(c, Do(c, s, acts[0]), acts[1..]);
    }
  }

  /** Seal does not take the lock; still at most one seal-gated append completes after it, in every run, and
      none does if nobody holds the lock when it happens. */
  lemma SealBound(c: Config, before: seq<Action>, after: seq<Action>)
    requires RunsFrom(c, Init(), before)
    requires var s := After(c, Init(), before); RunsFrom(c, Do(c, s, Seal), after)
    ensures var s := After(c, Init(), before);
            && GatedAppends(c, Do(c, s, Seal), after) <= 1
            && (s.lock.None? ==> GatedAppends(c, Do(c, s, Seal), after) == 0)
  {
    RunLockOk(c, Init(), before);
    SealedRun(c, Do(c, After(c, Init(), before), Seal), after);
  }

  /** Cell indices never exceed the table size, and are below it while the lock is free. */
  predicate CellsBounded(s: State) {
    forall k :: k in s.writeTable ==>
      && s.writeTable[k].index <= |s.table|
      && (Unfinished(s) || s.writeTable[k].index < |s.table|)
  }

  predicate Unfinished(s: State) {
    s.lock.Some? && s.lock.value in s.txs && s.txs[s.lock.value].phase.Putting?
  }

  /** A cell of the write table is never removed and its index never decreases. */
  predicate CellsGrow(s: State, s': State) {
    forall k :: k in s.writeTable ==> k in s'.writeTable && s.writeTable[k].index <= s'.writeTable[k].index
  }

  /** A step of the lock holder other than a put leaves the write table, and ends the puts only with a new row. */
  lemma LockStepCells(c: Config, s: State, a: Action)
    requires LockOk(s) && CellsBounded(s) && Enabled(s, a) && !Unlocked(a) && !a.PutWrite?
    ensures CellsBounded(Do(c, s, a)) && CellsGrow(s, Do(c, s, a))
  {
  }

  lemma StepCells(c: Config, s: State, a: Action)
    requires LockOk(s) && CellsBounded(s) && Enabled(s, a)
    ensures CellsBounded(Do(c, s, a)) && CellsGrow(s, Do(c, s, a))
  {
    if Unlocked(a) {
      RunStepShape(c, s, a);
    } else if !a.PutWrite? {
      LockStepCells(c, s, a);
    }
  }

  lemma {:induction false} RunCells(c: Config, s: State, acts: seq<Action>)
    requires LockOk(s) && CellsBounded(s) && RunsFrom(c, s, acts)
    ensures LockOk(After(c, s, acts)) && CellsBounded(After(c, s, acts)) && CellsGrow(s, After(c, s, acts))
    decreases |acts|
  {
    if acts == [] {
    } else {
      StepLockOk(c, s, acts[0]);
      StepCells(c, s, acts[0]);
      RunCells(c, Do(c, s, acts[0]), acts[1..]);
    }
  }

  /** The two shortcuts agree with the conflict check under the lock: a conflict found by the unlocked
      pre-check is still there at every later moment, and at the gate a context that started at the current
      table size has no conflict at all. */
  lemma ShortcutsAgree(c: Config, before: seq<Action>, after: seq<Action>, x: Ctx)
    requires RunsFrom(c, Init(), before)
    requires RunsFrom(c, After(c, Init(), before), after)
    ensures var s := After(c, Init(), before);
            var s' := After(c, s, after);
            && (forall k :: Conflicts(s, x, k) ==> Conflicts(s', x, k))
            && (!Unfinished(s) && x.execSeq >= |s.table| ==> forall k :: !Conflicts(s, x, k))
  {
    RunCells(c, Init(), before);
    RunCells(c, After(c, Init(), before), after);
  }

  function RowIds(table: seq<Entry>): seq<nat> {
    seq(|table|, i requires 0 <= i < |table| => table[i].tx)
  }

  /** The transactions whose append is among `acts`, in order. */
  function AppendedBy(acts: seq<Action>): seq<nat> {
    if acts == [] then [] else (if acts[0].Append? then [acts[0].t] else []) + AppendedBy(acts[1..])
  }

  /** The iterator transactions that `acts` put off, in order. */
  function DeferredBy(acts: seq<Action>): seq<nat> {
    if acts == [] then [] else (if acts[0].AppendSpecial? then [acts[0].t] else []) + DeferredBy(acts[1..])
  }

  lemma StepRecords(c: Config, s: State, a: Action)
    requires Enabled(s, a)
    ensures RowIds(Do(c, s, a).table) == RowIds(s.table) + if a.Append? then [a.t] else []
    ensures Do(c, s, a).special == s.special + if a.AppendSpecial? then [a.t] else []
    ensures s.table <= Do(c, s, a).table
  {
    assert a.Append? || Do(c, s, a).table == s.table;
  }

  lemma Regroup(x: seq<nat>, y: seq<nat>, z: seq<nat>)
    ensures x + y + z == x + (y + z)
  {
  }

  /** Nothing else enters the two lists, nothing leaves them, and rows never change. */
  lemma {:induction false} RunRecords(c: Config, s: State, acts: seq<Action>)
    requires RunsFrom(c, s, acts)
    ensures var s' := After(c, s, acts);
            && RowIds(s'.table) == RowIds(s.table) + AppendedBy(acts)
            && s'.special == s.special + DeferredBy(acts)
            && s.table <= s'.table
    decreases |acts|
  {
    if acts == [] {
    } else {
      var a := acts[0];
      StepRecords(c, s, a);
      RunRecords(c, Do(c, s, a), acts[1..]);
      Regroup(RowIds(s.table), if a.Append? then [a.t] else [], AppendedBy(acts[1..]));
      Regroup(s.special, if a.AppendSpecial? then [a.t] else [], DeferredBy(acts[1..]));
    }
  }
}
