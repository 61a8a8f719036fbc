/** Below block version 2201 the reads of failed runs reach the read table, and the snapshot is not serializable:
    a failed transaction leaves the value of its own dropped put behind, and a later one reads it. */
module FailedRunReads {
  import opened Basics
  import opened TxLog
  import opened OptimisticApply
  import opened OptimisticApplyTheorems

  ghost predicate Reachable(c: Config, s: State) {
    exists acts :: RunsFrom(c, Init(), acts) && After(c, Init(), acts) == s
  }

  lemma {:induction false} OneMore(c: Config, s: State, acts: seq<Action>, a: Action)
    requires RunsFrom(c, s, acts) && Enabled(After(c, s, acts), a)
    ensures RunsFrom(c, s, acts + [a]) && After(c, s, acts + [a]) == Do(c, After(c, s, acts), a)
    decreases |acts|
  {
    if acts == [] {
      assert [a][1..] == [];
    } else {
      OneMore(c, Do(c, s, acts[0]), acts[1..], a);
      assert (acts + [a])[1..] == acts[1..] + [a];
    }
  }

  lemma ReachableStep(c: Config, s: State, a: Action)
    requires Reachable(c, s) && Enabled(s, a)
    ensures Reachable(c, Do(c, s, a))
  {
    var acts :| RunsFrom(c, Init(), acts) && After(c, Init(), acts) == s;
    OneMore(c, Init(), acts, a);
  }

  lemma ReachableInit(c: Config)
    ensures Reachable(c, Init())
  {
    assert RunsFrom(c, Init(), []) && After(c, Init(), []) == Init();
  }

  const K: Key := "k"

  /** The row of the failed transaction: it put `v`, read it back, and its put was dropped. */
  function FailedRow(v: Value): Entry {
    Entry(0, Normal, false, [Write(K, v), Read(K, v)], map[K := v], map[])
  }

  function AfterFailed(v: Value): State {
    State(map[], None, false, map[K := Cell(0, v)], map[], [FailedRow(v)], [])
  }

  /** A context of one of the two transactions at a given phase. */
  function FailedCtx(v: Value, phase: Phase): Ctx {
    Ctx(Normal, 0, [Write(K, v), Read(K, v)], map[], map[K := v], map[K := v], false, map[], phase)
  }

  function MisledCtx(v: Value, phase: Phase): Ctx {
    Ctx(Normal, 1, [Read(K, v)], map[K := v], map[K := v], map[], true, map[], phase)
  }

  /** The snapshot `s` with the context `x` of transaction `t` alone. */
  function With(s: State, t: nat, x: Ctx): State {
    s.(txs := map[t := x])
  }

  /** A step that turns the only context from `x` into `y`. */
  lemma OnlyStep(c: Config, s: State, t: nat, x: Ctx, a: Action, y: Ctx)
    requires Reachable(c, With(s, t, x)) && Enabled(With(s, t, x), a) && Do(c, With(s, t, x), a) == WithCtx(With(s, t, x), t, y)
    ensures Reachable(c, With(s, t, y))
  {
    ReachableStep(c, With(s, t, x), a);
    assert map[t := x][t := y] == map[t := y];
  }

  lemma OnlyStart(c: Config, s: State, t: nat)
    requires Reachable(c, s) && s.txs == map[]
    ensures Reachable(c, With(s, t, Ctx(Normal, |s.table|, [], map[], map[], map[], true, map[], Running)))
  {
    ReachableStep(c, s, Start(t, Normal));
    var x := Ctx(Normal, |s.table|, [], map[], map[], map[], true, map[], Running);
    assert s.txs[t := x] == map[t := x];
  }

  /** The first transaction puts its value, */
  lemma FailedPuts(c: Config, v: Value)
    ensures Reachable(c, With(Init(), 0, Ctx(Normal, 0, [Write(K, v)], map[], map[], map[K := v], true, map[], Running)))
  {
    ReachableInit(c);
    OnlyStart(c, Init(), 0);
    var x := Ctx(Normal, 0, [], map[], map[], map[], true, map[], Running);
    assert [] + [Write(K, v)] == [Write(K, v)];
    OnlyStep(c, Init(), 0, x, Put(0, K, v), x.(log := [Write(K, v)], writeSet := map[K := v]));
  }

  /** reads it back, */
  lemma FailedReads(c: Config, v: Value)
    requires c.version < READS_OF_FAILED_RUNS_DROPPED
    ensures Reachable(c, With(Init(), 0, FailedCtx(v, Running).(success := true)))
  {
    FailedPuts(c, v);
    var x := Ctx(Normal, 0, [Write(K, v)], map[], map[], map[K := v], true, map[], Running);
    assert [Write(K, v)] + [Read(K, v)] == [Write(K, v), Read(K, v)];
    OnlyStep(c, Init(), 0, x, ReadOwn(0, K), FailedCtx(v, Running).(success := true));
  }

  /** and fails. */
  lemma FailedRuns(c: Config, v: Value)
    requires c.version < READS_OF_FAILED_RUNS_DROPPED
    ensures Reachable(c, With(Init(), 0, FailedCtx(v, PreChecking({K}))))
  {
    FailedReads(c, v);
    var x := FailedCtx(v, Running).(success := true);
    assert x.readSet.Keys == {K};
    OnlyStep(c, Init(), 0, x, Finish(0, false), FailedCtx(v, PreChecking({K})));
  }

  /** A lone context on an unsealed snapshot, at phase `phase`. */
  function Alone(s: State, t: nat, x: Ctx, phase: Phase): State {
    s.(txs := map[t := x.(phase := phase)], lock := if phase.HoldsLock() then Some(t) else None)
  }

  lemma AloneReplaced(s: State, t: nat, x: Ctx, phase: Phase, phase': Phase)
    requires phase.HoldsLock() == phase'.HoldsLock()
    ensures WithCtx(Alone(s, t, x, phase), t, x.(phase := phase')) == Alone(s, t, x, phase')
  {
    assert map[t := x.(phase := phase)][t := x.(phase := phase')] == map[t := x.(phase := phase')];
  }

  lemma AloneSteps(c: Config, s: State, t: nat, x: Ctx, phase: Phase, a: Action, phase': Phase)
    requires Reachable(c, Alone(s, t, x, phase)) && Enabled(Alone(s, t, x, phase), a)
    requires Do(c, Alone(s, t, x, phase), a) == Alone(s, t, x, phase')
    ensures Reachable(c, Alone(s, t, x, phase'))
  {
    ReachableStep(c, Alone(s, t, x, phase), a);
  }

  lemma AlonePreChecked(c: Config, s: State, t: nat, x: Ctx)
    requires Reachable(c, Alone(s, t, x, PreChecking({K}))) && K !in s.writeTable
    ensures Reachable(c, Alone(s, t, x, PreChecking({})))
  {
    assert {K} - {K} == {};
    AloneReplaced(s, t, x, PreChecking({K}), PreChecking({}));
    AloneSteps(c, s, t, x, PreChecking({K}), PreCheck(t, K), PreChecking({}));
  }

  lemma AloneWaiting(c: Config, s: State, t: nat, x: Ctx)
    requires Reachable(c, Alone(s, t, x, PreChecking({})))
    ensures Reachable(c, Alone(s, t, x, Waiting))
  {
    AloneReplaced(s, t, x, PreChecking({}), Waiting);
    AloneSteps(c, s, t, x, PreChecking({}), PreCheckDone(t), Waiting);
  }

  lemma AloneLocked(c: Config, s: State, t: nat, x: Ctx)
    requires Reachable(c, Alone(s, t, x, Waiting))
    ensures Reachable(c, Alone(s, t, x, Locked))
  {
    assert WithCtx(Alone(s, t, x, Waiting), t, x.(phase := Locked)).txs == map[t := x.(phase := Locked)];
    AloneSteps(c, s, t, x, Waiting, Acquire(t), Locked);
  }

  lemma AlonePassesGate(c: Config, s: State, t: nat, x: Ctx)
    requires Reachable(c, Alone(s, t, x, Locked)) && !s.sealed
    requires x.kind.Normal? && x.execSeq == |s.table| && x.writes == map[] && CachedReads(c, x) == {K}
    ensures Reachable(c, Alone(s, t, x, Putting({K}, {})))
  {
    AloneReplaced(s, t, x, Locked, Putting({K}, {}));
    assert StartPutting(c, x.(phase := Locked)) == x.(phase := Putting({K}, {}));
    AloneSteps(c, s, t, x, Locked, Gate(t), Putting({K}, {}));
  }

  /** A lone normal context that only read `K`, started at the current size, up to its puts. */
  lemma AloneToPutting(c: Config, s: State, t: nat, x: Ctx)
    requires Reachable(c, Alone(s, t, x, PreChecking({K}))) && !s.sealed && K !in s.writeTable
    requires x.kind.Normal? && x.execSeq == |s.table| && x.readSet.Keys == {K} && x.writes == map[]
    requires CachedReads(c, x) == {K}
    ensures Reachable(c, Alone(s, t, x, Putting({K}, {})))
  {
    AlonePreChecked(c, s, t, x);
    AloneWaiting(c, s, t, x);
    AloneLocked(c, s, t, x);
    AlonePassesGate(c, s, t, x);
  }

  /** The read table once the lone context has put its read. */
  function Cached(s: State, x: Ctx): State
    requires K in x.readSet
  {
    s.(readTable := s.readTable[K := Cell(|s.table|, x.readSet[K])])
  }

  lemma AlonePut(c: Config, s: State, t: nat, x: Ctx)
    requires Reachable(c, Alone(s, t, x, Putting({K}, {}))) && x.readSet.Keys == {K}
    ensures Reachable(c, Alone(Cached(s, x), t, x, Putting({}, {})))
  {
    ReachableStep(c, Alone(s, t, x, Putting({K}, {})), PutRead(t, K));
    assert {K} - {K} == {};
    AloneReplaced(s, t, x, Putting({K}, {}), Putting({}, {}));
  }

  lemma AloneStored(c: Config, s: State, t: nat, x: Ctx)
    requires Reachable(c, Alone(s, t, x, Putting({}, {})))
    ensures Reachable(c, Alone(s, t, x, Stored).(table := s.table + [Row(t, x)]))
  {
    ReachableStep(c, Alone(s, t, x, Putting({}, {})), Append(t));
    AloneReplaced(s, t, x, Putting({}, {}), Stored);
  }

  lemma AloneAccepted(c: Config, s: State, t: nat, x: Ctx)
    requires Reachable(c, Alone(s, t, x, PreChecking({K}))) && !s.sealed && K !in s.writeTable
    requires x.kind.Normal? && x.execSeq == |s.table| && x.readSet.Keys == {K} && x.writes == map[]
    requires CachedReads(c, x) == {K}
    ensures Reachable(c, Cached(s, x).(txs := map[], lock := None, table := s.table + [Row(t, x)]))
  {
    AloneToPutting(c, s, t, x);
    AlonePut(c, s, t, x);
    AloneStored(c, Cached(s, x), t, x);
    var s10 := Alone(Cached(s, x), t, x, Stored).(table := s.table + [Row(t, x)]);
    ReachableStep(c, s10, Release(t));
    assert s10.txs - {t} == map[];
  }

  lemma FailedReadsCached(c: Config, v: Value)
    requires c.version < READS_OF_FAILED_RUNS_DROPPED
    ensures Reachable(c, AfterFailed(v))
  {
    FailedRuns(c, v);
    var x := FailedCtx(v, PreChecking({K}));
    assert Alone(Init(), 0, x, x.phase) == With(Init(), 0, x);
    AloneAccepted(c, Init(), 0, x);
    assert [] + [Row(0, x)] == [FailedRow(v)];
  }

  /** The second transaction finds the value in the read table, */
  lemma MisledReads(c: Config, v: Value)
    requires Reachable(c, AfterFailed(v))
    ensures Reachable(c, With(AfterFailed(v), 1, MisledCtx(v, Running)))
  {
    var s0 := AfterFailed(v);
    OnlyStart(c, s0, 1);
    var x := Ctx(Normal, 1, [], map[], map[], map[], true, map[], Running);
    OnlyStep(c, s0, 1, x, ProbeWriteTable(1, K), x.(phase := MissedWriteTable(K)));
    assert [] + [Read(K, v)] == [Read(K, v)];
    OnlyStep(c, s0, 1, x.(phase := MissedWriteTable(K)), ProbeReadTable(1), MisledCtx(v, Running));
  }

  /** and succeeds. */
  lemma MisledRuns(c: Config, v: Value)
    requires Reachable(c, AfterFailed(v))
    ensures Reachable(c, With(AfterFailed(v), 1, MisledCtx(v, PreChecking({K}))))
  {
    MisledReads(c, v);
    assert MisledCtx(v, Running).readSet.Keys == {K};
    OnlyStep(c, AfterFailed(v), 1, MisledCtx(v, Running), Finish(1, true), MisledCtx(v, PreChecking({K})));
  }

  lemma MisledAccepted(c: Config, v: Value) returns (s: State)
    requires Reachable(c, AfterFailed(v))
    ensures Reachable(c, s)
    ensures s.table == [FailedRow(v), Entry(1, Normal, true, [Read(K, v)], map[K := v], map[])]
  {
    MisledRuns(c, v);
    var x, s0 := MisledCtx(v, PreChecking({K})), AfterFailed(v);
    assert Alone(s0, 1, x, x.phase) == With(s0, 1, x);
    AloneAccepted(c, s0, 1, x);
    s := Cached(s0, x).(txs := map[], lock := None, table := s0.table + [Row(1, x)]);
  }

  /** Every run of a snapshot is serializable exactly from block version 2201 on. */
  lemma SerializableIffReadsDropped(c: Config)
    ensures (forall s :: Reachable(c, s) ==> Serializable(c, s.table)) <==> c.version >= 2201
  {
    if c.version >= READS_OF_FAILED_RUNS_DROPPED {
      forall s | Reachable(c, s) ensures Serializable(c, s.table) {
        var acts :| RunsFrom(c, Init(), acts) && After(c, Init(), acts) == s;
        Serializability(c, acts);
      }
    } else {
      var v := if c.base(K) == "a" then "b" else "a";
      FailedReadsCached(c, v);
      var s := MisledAccepted(c, v);
      var log := [Read(K, v)];
      assert s.table[..1] == [FailedRow(v)];
      assert Front([FailedRow(v)]) == [] && Front(log) == [];
      assert SerialValue(c.base, [FailedRow(v)], K) == c.base(K);
      assert !SerialLog(c.base, s.table[..1], s.table[1].log);
    }
  }
}
