/** Every replay of a block ends, and what has run when no step is left is the block. */
module DagReplayEnds {
  import opened Basics
  import opened TxLog
  import opened OptimisticApply
  import opened OptimisticApplyProof
  import opened OptimisticApplyTheorems
  import opened Replay
  import opened DagReplay
  import opened DagReplayTheorems

  /** The steps after a run is over: at most this many for `r` recorded reads and `w` writes. */
  function Tail(r: nat, w: nat): nat {
    7 + 3 * r + w
  }

  /** The steps transaction `t` of the block takes at most. */
  function Whole(c: Config, b: Block, t: nat): nat
    requires t < |b.table|
  {
    var row := b.table[t];
    1 + Tail(|RecordedKeys(c, row.log)|, |row.writes|) + 4 * |row.log|
  }

  /** The steps a context still takes at most. */
  function CtxRank(c: Config, b: Block, t: nat, x: Ctx): int
    requires t < |b.table|
  {
    var row := b.table[t];
    var running := Tail(|RecordedKeys(c, row.log)|, |row.writes|) + 4 * (|row.log| - |x.log|);
    var r, w := |x.readSet.Keys|, |x.writes.Keys|;
    match x.phase
    case Running => running
    case MissedWriteTable(_) => running - 1
    case MissedReadTable(_) => running - 2
    case Batch(_, _) => running
    case PreChecking(todo) => 6 + 2 * r + w + |todo|
    case Waiting => 5 + 2 * r + w
    case Locked => 4 + 2 * r + w
    case Deferring => 0
    case Rechecking(todo) => 3 + r + w + |todo|
    case Putting(rs, ws) => 2 + |rs| + |ws|
    case Stored => 1
  }

  function Rank(c: Config, b: Block, s: State, t: nat): int
    requires t < |b.table|
  {
    if t in s.txs then CtxRank(c, b, t, s.txs[t]) else if Ran(s.table, t) then 0 else Whole(c, b, t)
  }

  function Sum(q: seq<int>): int {
    if q == [] then 0 else Sum(q[..|q| - 1]) + q[|q| - 1]
  }

  function Ranks(c: Config, b: Block, s: State): (q: seq<int>)
    ensures |q| == |b.table| && forall t :: 0 <= t < |q| ==> q[t] == Rank(c, b, s, t)
  {
    seq(|b.table|, t requires 0 <= t < |b.table| => Rank(c, b, s, t))
  }

  /** The steps that are left at most. */
  function Total(c: Config, b: Block, s: State): int {
    Sum(Ranks(c, b, s))
  }

  lemma {:induction false} SumDrops(q: seq<int>, q': seq<int>, t: nat)
    requires |q| == |q'| && forall u :: 0 <= u < |q| && u != t ==> q'[u] == q[u]
    requires t < |q| ==> q'[t] < q[t]
    ensures Sum(q') <= Sum(q) - if t < |q| then 1 else 0
    decreases |q|
  {
    if q == [] {
    } else {
      SumDrops(q[..|q| - 1], q'[..|q| - 1], t);
    }
  }

  lemma {:induction false} SumPositive(q: seq<int>)
    requires forall u :: 0 <= u < |q| ==> q[u] >= 0
    ensures Sum(q) >= 0
    decreases |q|
  {
    if q == [] {
    } else {
      SumPositive(q[..|q| - 1]);
    }
  }

  lemma RemoveSize<T>(a: set<T>, x: T)
    requires x in a
    ensures |a - {x}| == |a| - 1
  {
  }

  // --- one context ---

  /** Reading steps: the log grows towards the block's, or a probe misses. */
  lemma ReadRank(c: Config, b: Block, s: State, a: Action)
    requires BlockOk(c, b) && Scheduled(b, s, a) && a.t in s.txs && OnTrack(c, b, s.table, a.t, s.txs[a.t])
    requires a.ReadOwn? || a.ReadRecorded? || a.ProbeWriteTable? || a.ProbeReadTable? || a.ReadBase? || a.Put?
    ensures a.t in Do(c, s, a).txs && CtxRank(c, b, a.t, Do(c, s, a).txs[a.t]) < CtxRank(c, b, a.t, s.txs[a.t])
  {
    NextEvent(c, b, a.t, s.txs[a.t].log);
  }

  /** The run is over: its read set and its writes are the block's. */
  lemma FinishRank(c: Config, b: Block, s: State, a: Action)
    requires BlockOk(c, b) && Scheduled(b, s, a) && a.Finish? && !s.sealed
    requires OnTrack(c, b, s.table, a.t, s.txs[a.t]) && RecordOk(c, s.txs[a.t])
    ensures a.t in Do(c, s, a).txs && CtxRank(c, b, a.t, Do(c, s, a).txs[a.t]) < CtxRank(c, b, a.t, s.txs[a.t])
  {
    NextEvent(c, b, a.t, s.txs[a.t].log);
    assert RanAlone(c, b.progs[a.t], b.table[..a.t], b.table[a.t]);
    assert Do(c, s, a).txs[a.t].writes == b.table[a.t].writes;
  }

  /** The pre-check: one key fewer to do. */
  lemma PreCheckRank(c: Config, b: Block, s: State, a: Action)
    requires Enabled(s, a) && a.PreCheck? && a.t < |b.table| && a.t in Do(c, s, a).txs
    ensures CtxRank(c, b, a.t, Do(c, s, a).txs[a.t]) < CtxRank(c, b, a.t, s.txs[a.t])
  {
    RemoveSize(s.txs[a.t].phase.todo, a.key);
  }

  lemma PreCheckDoneRank(c: Config, b: Block, s: State, a: Action)
    requires a.PreCheckDone? && Enabled(s, a) && a.t < |b.table|
    ensures a.t in Do(c, s, a).txs && CtxRank(c, b, a.t, Do(c, s, a).txs[a.t]) < CtxRank(c, b, a.t, s.txs[a.t])
  {
  }

  lemma AcquireRank(c: Config, b: Block, s: State, a: Action)
    requires a.Acquire? && Enabled(s, a) && a.t < |b.table|
    ensures a.t in Do(c, s, a).txs && CtxRank(c, b, a.t, Do(c, s, a).txs[a.t]) < CtxRank(c, b, a.t, s.txs[a.t])
  {
  }

  lemma AppendRank(c: Config, b: Block, s: State, a: Action)
    requires a.Append? && Enabled(s, a) && a.t < |b.table|
    ensures a.t in Do(c, s, a).txs && CtxRank(c, b, a.t, Do(c, s, a).txs[a.t]) < CtxRank(c, b, a.t, s.txs[a.t])
  {
  }

  lemma PuttingRank(c: Config, b: Block, t: nat, x: Ctx)
    requires t < |b.table|
    ensures CtxRank(c, b, t, StartPutting(c, x)) <= 2 + |x.readSet.Keys| + |x.writes.Keys|
  {
    SubsetSize(CachedReads(c, x), x.readSet.Keys);
  }

  lemma GateRank(c: Config, b: Block, s: State, a: Action)
    requires Enabled(s, a) && a.Gate? && a.t < |b.table| && a.t in Do(c, s, a).txs && s.txs[a.t].kind.Checked()
    ensures CtxRank(c, b, a.t, Do(c, s, a).txs[a.t]) < CtxRank(c, b, a.t, s.txs[a.t])
  {
    PuttingRank(c, b, a.t, s.txs[a.t]);
  }

  lemma RecheckOneRank(c: Config, b: Block, s: State, t: nat, k: Key)
    requires Enabled(s, Recheck(t, k)) && t < |b.table| && t in Do(c, s, Recheck(t, k)).txs
    ensures CtxRank(c, b, t, Do(c, s, Recheck(t, k)).txs[t]) < CtxRank(c, b, t, s.txs[t])
  {
    RemoveSize(s.txs[t].phase.todo, k);
  }

  lemma RecheckDoneRank(c: Config, b: Block, s: State, t: nat)
    requires Enabled(s, RecheckDone(t)) && t < |b.table|
    ensures t in Do(c, s, RecheckDone(t)).txs
    ensures CtxRank(c, b, t, Do(c, s, RecheckDone(t)).txs[t]) < CtxRank(c, b, t, s.txs[t])
  {
    PuttingRank(c, b, t, s.txs[t]);
  }

  lemma RecheckRank(c: Config, b: Block, s: State, a: Action)
    requires Enabled(s, a) && (a.Recheck? || a.RecheckDone?) && a.t < |b.table| && a.t in Do(c, s, a).txs
    ensures CtxRank(c, b, a.t, Do(c, s, a).txs[a.t]) < CtxRank(c, b, a.t, s.txs[a.t])
  {
    if a.Recheck? {
      RecheckOneRank(c, b, s, a.t, a.key);
    } else {
      RecheckDoneRank(c, b, s, a.t);
    }
  }

  lemma PutRank(c: Config, b: Block, s: State, a: Action)
    requires Enabled(s, a) && (a.PutRead? || a.PutWrite?) && a.t < |b.table|
    ensures a.t in Do(c, s, a).txs && CtxRank(c, b, a.t, Do(c, s, a).txs[a.t]) < CtxRank(c, b, a.t, s.txs[a.t])
  {
    RemoveSize(if a.PutRead? then s.txs[a.t].phase.readsTodo else s.txs[a.t].phase.writesTodo, a.key);
  }

  // --- the whole replay ---

  /** A step of a context that stays. */
  lemma StayRank(c: Config, b: Block, s: State, a: Action)
    requires BlockOk(c, b) && ReplayInv(c, b, s) && Scheduled(b, s, a) && !a.Start? && a.t in Do(c, s, a).txs
    ensures CtxRank(c, b, a.t, Do(c, s, a).txs[a.t]) < CtxRank(c, b, a.t, s.txs[a.t])
  {
    assert OnTrack(c, b, s.table, a.t, s.txs[a.t]) && RecordOk(c, s.txs[a.t]);
    if a.ReadOwn? || a.ReadRecorded? || a.ProbeWriteTable? || a.ProbeReadTable? || a.ReadBase? || a.Put? {
      ReadRank(c, b, s, a);
    } else if a.Finish? {
      FinishRank(c, b, s, a);
    } else if a.PreCheck? {
      PreCheckRank(c, b, s, a);
    } else if a.PreCheckDone? {
      PreCheckDoneRank(c, b, s, a);
    } else if a.Acquire? {
      AcquireRank(c, b, s, a);
    } else if a.Append? {
      AppendRank(c, b, s, a);
    } else if a.Gate? {
      GateRank(c, b, s, a);
    } else if a.Recheck? || a.RecheckDone? {
      RecheckRank(c, b, s, a);
    } else {
      PutRank(c, b, s, a);
    }
  }

  /** A step lowers the rank of its transaction. */
  lemma StepRank(c: Config, b: Block, s: State, a: Action)
    requires BlockOk(c, b) && ReplayInv(c, b, s) && Scheduled(b, s, a) && a.t < |b.table|
    ensures Rank(c, b, Do(c, s, a), a.t) < Rank(c, b, s, a.t)
  {
    StepTracks(c, b, s, a);
    if a.Start? {
      assert Do(c, s, a).txs[a.t].log == [];
    } else if a.t in Do(c, s, a).txs {
      StayRank(c, b, s, a);
    } else {
      PositiveRank(c, b, s, a.t);
    }
  }

  lemma PositiveRank(c: Config, b: Block, s: State, t: nat)
    requires ReplayInv(c, b, s) && t in s.txs
    ensures t < |b.table| && CtxRank(c, b, t, s.txs[t]) > 0
  {
    assert OnTrack(c, b, s.table, t, s.txs[t]) && RecordOk(c, s.txs[t]);
  }

  lemma RankPositive(c: Config, b: Block, s: State, t: nat)
    requires ReplayInv(c, b, s) && t < |b.table|
    ensures Rank(c, b, s, t) >= 0
  {
    if t in s.txs {
      PositiveRank(c, b, s, t);
    }
  }

  /** It leaves the others alone. */
  lemma OtherRank(c: Config, b: Block, s: State, a: Action, u: nat)
    requires Scheduled(b, s, a) && LockOk(s) && u != a.t && u < |b.table|
    ensures Rank(c, b, Do(c, s, a), u) == Rank(c, b, s, u)
  {
    var s' := Do(c, s, a);
    if Unlocked(a) {
      RunStepShape(c, s, a);
    } else {
      LockStepShape(c, s, a);
      RanElsewhere(c, s, a, u);
    }
  }

  lemma RanElsewhere(c: Config, s: State, a: Action, u: nat)
    requires Enabled(s, a) && !a.Seal? && u != a.t
    ensures Ran(Do(c, s, a).table, u) <==> Ran(s.table, u)
  {
    var s' := Do(c, s, a);
    assert s'.table == s.table || (a.Append? && s'.table == s.table + [Row(a.t, s.txs[a.t])]);
    if Ran(s.table, u) {
      var q :| 0 <= q < |s.table| && s.table[q].tx == u;
      assert s'.table[q].tx == u;
    }
  }

  lemma TotalDrops(c: Config, b: Block, s: State, a: Action)
    requires BlockOk(c, b) && ReplayInv(c, b, s) && Scheduled(b, s, a) && a.t < |b.table|
    ensures Total(c, b, Do(c, s, a)) < Total(c, b, s)
  {
    var q, q' := Ranks(c, b, s), Ranks(c, b, Do(c, s, a));
    forall u | 0 <= u < |q| && u != a.t ensures q'[u] == q[u] {
      OtherRank(c, b, s, a, u);
    }
    StepRank(c, b, s, a);
    SumDrops(q, q', a.t);
  }

  lemma TotalPositive(c: Config, b: Block, s: State)
    requires ReplayInv(c, b, s)
    ensures Total(c, b, s) >= 0
  {
    forall u | 0 <= u < |b.table| ensures Ranks(c, b, s)[u] >= 0 {
      RankPositive(c, b, s, u);
    }
    SumPositive(Ranks(c, b, s));
  }

  lemma {:induction false} RunBounded(c: Config, b: Block, s: State, acts: seq<Action>)
    requires BlockOk(c, b) && ReplayInv(c, b, s) && ReplaysFrom(c, b, s, acts)
    ensures |acts| <= Total(c, b, s)
    decreases |acts|
  {
    if acts == [] {
      TotalPositive(c, b, s);
    } else {
      var s' := Do(c, s, acts[0]);
      StepTracks(c, b, s, acts[0]);
      TotalDrops(c, b, s, acts[0]);
      RunBounded(c, b, s', acts[1..]);
    }
  }

  /** No replay goes on for ever: its length is bounded by the block. */
  lemma ReplayEnds(c: Config, b: Block, acts: seq<Action>)
    requires BlockOk(c, b) && ReplaysFrom(c, b, Init(), acts)
    ensures |acts| <= Total(c, b, Init())
  {
    ReplayInit(c, b);
    RunBounded(c, b, Init(), acts);
  }

  /** When no step is left every transaction is in the table, with the block's row, and the snapshot answers the block's
      state. */
  lemma FinishedReplay(c: Config, b: Block, acts: seq<Action>)
    requires BlockOk(c, b) && ReplaysFrom(c, b, Init(), acts)
    requires forall a :: !Scheduled(b, ReplayedTo(c, b, Init(), acts), a)
    ensures var s := ReplayedTo(c, b, Init(), acts);
            && s.txs == map[] && SameRows(b.table, s.table)
            && (forall j :: 0 <= j < |b.table| ==> Ran(s.table, j))
            && forall k :: GetKey(c, s, k) == SerialValue(c.base, b.table, k)
  {
    var s := ReplayedTo(c, b, Init(), acts);
    if s.txs != map[] || exists j :: 0 <= j < |b.table| && !Ran(s.table, j) {
      var a := ReplayNeverStuck(c, b, acts);
      assert false;
    }
    ReplayAlongGraph(c, b, acts);
  }
}
