/** Theorems about whole replays of a block along its dependency graph. */
module DagReplayTheorems {
  import opened Basics
  import opened TxLog
  import opened OptimisticApply
  import opened OptimisticApplyProof
  import opened OptimisticApplyTheorems
  import opened Replay
  import opened Closure
  import opened DagReplay

  /** A step that cannot reject keeps its context. */
  lemma StaysIn(c: Config, s: State, a: Action)
    requires Enabled(s, a) && !a.Seal? && !a.AppendSpecial? && !a.Release?
    requires !a.Finish? && !a.PreCheck? && !a.Gate? && !a.Recheck?
    ensures a.t in Do(c, s, a).txs
  {
  }

  lemma RecordStepTracks(c: Config, b: Block, s: State, a: Action)
    requires BlockOk(c, b) && ReplayInv(c, b, s) && Scheduled(b, s, a) && (a.ReadOwn? || a.ReadRecorded?)
    ensures ReplayInv(c, b, Do(c, s, a))
  {
    if a.ReadOwn? {
      ReadOwnTracks(c, b, s, a);
    } else {
      ReadRecordedTracks(c, b, s, a);
    }
  }

  lemma ProbeStepTracks(c: Config, b: Block, s: State, a: Action)
    requires BlockOk(c, b) && ReplayInv(c, b, s) && Scheduled(b, s, a) && (a.ProbeWriteTable? || a.ProbeReadTable? || a.ReadBase?)
    ensures ReplayInv(c, b, Do(c, s, a))
  {
    if a.ProbeWriteTable? {
      ProbeWriteTableTracks(c, b, s, a);
    } else if a.ProbeReadTable? {
      ProbeReadTableTracks(c, b, s, a);
    } else {
      ReadBaseTracks(c, b, s, a);
    }
  }

  lemma OtherStepTracks(c: Config, b: Block, s: State, a: Action)
    requires BlockOk(c, b) && ReplayInv(c, b, s) && Scheduled(b, s, a) && (a.Start? || a.Put? || a.PreCheckDone?)
    ensures ReplayInv(c, b, Do(c, s, a))
  {
    if a.Start? {
      StartTracks(c, b, s, a);
    } else if a.Put? {
      PutTracks(c, b, s, a);
    } else {
      PreCheckDoneTracks(c, b, s, a);
    }
  }

  /** Iterator transactions are not part of a replay along the graph. */
  lemma NothingDeferred(c: Config, b: Block, s: State, a: Action)
    requires ReplayInv(c, b, s) && Scheduled(b, s, a)
    ensures !a.AppendSpecial?
  {
    if a.t in s.txs {
      assert OnTrack(c, b, s.table, a.t, s.txs[a.t]) && RecordOk(c, s.txs[a.t]);
    }
  }

  lemma PutStepTracks(c: Config, b: Block, s: State, a: Action)
    requires BlockOk(c, b) && ReplayInv(c, b, s) && Scheduled(b, s, a) && (a.PutRead? || a.PutWrite?)
    ensures ReplayInv(c, b, Do(c, s, a))
  {
    if a.PutRead? {
      PutReadTracks(c, b, s, a);
    } else {
      PutWriteTracks(c, b, s, a);
    }
  }

  /** The checks do not reject: before the lock, */
  lemma FinishStepTracks(c: Config, b: Block, s: State, a: Action)
    requires BlockOk(c, b) && ReplayInv(c, b, s) && Scheduled(b, s, a) && (a.Finish? || a.PreCheck?)
    ensures ReplayInv(c, b, Do(c, s, a)) && a.t in Do(c, s, a).txs
  {
    if a.Finish? {
      FinishTracks(c, b, s, a);
    } else {
      PreCheckTracks(c, b, s, a);
    }
  }

  /** and under it. */
  lemma CheckStepTracks(c: Config, b: Block, s: State, a: Action)
    requires BlockOk(c, b) && ReplayInv(c, b, s) && Scheduled(b, s, a) && (a.Gate? || a.Recheck?)
    ensures ReplayInv(c, b, Do(c, s, a)) && a.t in Do(c, s, a).txs
  {
    if a.Gate? {
      GateTracks(c, b, s, a);
    } else {
      RecheckTracks(c, b, s, a);
    }
  }

  lemma LockStepTracks(c: Config, b: Block, s: State, a: Action)
    requires BlockOk(c, b) && ReplayInv(c, b, s) && Scheduled(b, s, a) && (a.Acquire? || a.RecheckDone?)
    ensures ReplayInv(c, b, Do(c, s, a))
  {
    if a.Acquire? {
      AcquireTracks(c, b, s, a);
    } else {
      RecheckDoneTracks(c, b, s, a);
    }
  }

  /** No step of a replay rejects: a transaction that leaves is in the table. */
  lemma StepTracks(c: Config, b: Block, s: State, a: Action)
    requires BlockOk(c, b) && ReplayInv(c, b, s) && Scheduled(b, s, a)
    ensures ReplayInv(c, b, Do(c, s, a))
    ensures a.t in Do(c, s, a).txs || Ran(Do(c, s, a).table, a.t)
  {
    NothingDeferred(c, b, s, a);
    if a.Release? {
      ReleaseTracks(c, b, s, a);
    } else if a.Finish? || a.PreCheck? {
      FinishStepTracks(c, b, s, a);
    } else if a.Gate? || a.Recheck? {
      CheckStepTracks(c, b, s, a);
    } else {
      StaysIn(c, s, a);
      if a.ReadOwn? || a.ReadRecorded? {
        RecordStepTracks(c, b, s, a);
      } else if a.ProbeWriteTable? || a.ProbeReadTable? || a.ReadBase? {
        ProbeStepTracks(c, b, s, a);
      } else if a.Start? || a.Put? || a.PreCheckDone? {
        OtherStepTracks(c, b, s, a);
      } else if a.PutRead? || a.PutWrite? {
        PutStepTracks(c, b, s, a);
      } else if a.Append? {
        AppendTracks(c, b, s, a);
      } else {
        LockStepTracks(c, b, s, a);
      }
    }
  }

  /** `acts` can happen one after the other as a replay. */
  predicate ReplaysFrom(c: Config, b: Block, s: State, acts: seq<Action>)
    decreases |acts|
  {
    acts != [] ==> Scheduled(b, s, acts[0]) && ReplaysFrom(c, b, Do(c, s, acts[0]), acts[1..])
  }

  function ReplayedTo(c: Config, b: Block, s: State, acts: seq<Action>): State
    requires ReplaysFrom(c, b, s, acts)
    decreases |acts|
  {
    if acts == [] then s else ReplayedTo(c, b, Do(c, s, acts[0]), acts[1..])
  }

  lemma {:induction false} RunTracks(c: Config, b: Block, s: State, acts: seq<Action>)
    requires BlockOk(c, b) && ReplayInv(c, b, s) && ReplaysFrom(c, b, s, acts)
    ensures ReplayInv(c, b, ReplayedTo(c, b, s, acts))
    decreases |acts|
  {
    if acts == [] {
    } else {
      StepTracks(c, b, s, acts[0]);
      RunTracks(c, b, Do(c, s, acts[0]), acts[1..]);
    }
  }

  lemma ReplayInit(c: Config, b: Block)
    requires BlockOk(c, b)
    ensures ReplayInv(c, b, Init())
  {
    InitOk(c);
  }

  /** In every interleaving of a replay along a graph that covers the conflicts, every row is the row of the block:
      the same values read, the same writes, the same result.  Once every transaction is in the table the snapshot
      answers the state of the block. */
  lemma ReplayAlongGraph(c: Config, b: Block, acts: seq<Action>)
    requires BlockOk(c, b) && ReplaysFrom(c, b, Init(), acts)
    ensures var s := ReplayedTo(c, b, Init(), acts);
            && SameRows(b.table, s.table)
            && ((forall j :: 0 <= j < |b.table| ==> Ran(s.table, j)) ==>
                  forall k :: GetKey(c, s, k) == SerialValue(c.base, b.table, k))
  {
    ReplayInit(c, b);
    RunTracks(c, b, Init(), acts);
    var s := ReplayedTo(c, b, Init(), acts);
    if forall j :: 0 <= j < |b.table| ==> Ran(s.table, j) {
      assert b.table[..|b.table|] == b.table;
      forall k ensures GetKey(c, s, k) == SerialValue(c.base, b.table, k) {
        SameLastWriter(c, b.bare, b.table, b.txs, s.table, |b.table|, k);
        NothingPending(c, b, s);
        assert CellAt(s.writeTable, k) == ExpectedCell(s, k);
        SerialValueByWriter(c.base, s.table, k);
      }
    }
  }

  lemma NothingPending(c: Config, b: Block, s: State)
    requires ReplayInv(c, b, s) && forall j :: 0 <= j < |b.table| ==> Ran(s.table, j)
    ensures Pending(s) == map[]
  {
    if s.lock.Some? {
      assert OnTrack(c, b, s.table, s.lock.value, s.txs[s.lock.value]);
    }
  }

  /** A step the lock holder can take. */
  lemma HolderEnabled(c: Config, s: State, t: nat) returns (a: Action)
    requires t in s.txs && s.txs[t].phase.HoldsLock() && !s.txs[t].phase.Deferring? && RecordOk(c, s.txs[t])
    ensures Enabled(s, a) && !a.Seal? && !Unlocked(a) && a.t == t
  {
    match s.txs[t].phase {
      case Locked => a := Gate(t);
      case Rechecking(todo) =>
        if k :| k in todo {
          a := Recheck(t, k);
        } else {
          a := RecheckDone(t);
        }
      case Putting(rs, ws) =>
        if k :| k in rs {
          a := PutRead(t, k);
        } else if k :| k in ws {
          a := PutWrite(t, k);
        } else {
          a := Append(t);
        }
      case Stored => a := Release(t);
    }
  }

  lemma HolderCanMove(c: Config, b: Block, s: State) returns (a: Action)
    requires BlockOk(c, b) && ReplayInv(c, b, s) && s.lock.Some?
    ensures Scheduled(b, s, a)
  {
    var t := s.lock.value;
    assert OnTrack(c, b, s.table, t, s.txs[t]) && RecordOk(c, s.txs[t]);
    a := HolderEnabled(c, s, t);
  }

  /** The step of a running contract that its next call asks for. */
  lemma ContractCanMove(b: Block, s: State, t: nat) returns (a: Action)
    requires t in s.txs && s.txs[t].phase.Running? && t < |b.progs| && t < |b.dag|
    ensures Scheduled(b, s, a)
  {
    var x := s.txs[t];
    match Next(b, s, t) {
      case Get(k) =>
        a := if k in x.writeSet then ReadOwn(t, k) else if k in x.readSet then ReadRecorded(t, k)
             else ProbeWriteTable(t, k);
      case Set(k, v) => a := Put(t, k, v);
      case Done(success) => a := Finish(t, success);
    }
  }

  /** A step a context can take while the lock is free. */
  lemma ContextCanMove(b: Block, s: State, t: nat) returns (a: Action)
    requires s.lock.None? && t in s.txs && !s.txs[t].phase.HoldsLock() && !s.txs[t].phase.Batch?
    requires t < |b.progs| && t < |b.dag|
    ensures Scheduled(b, s, a)
  {
    match s.txs[t].phase {
      case Running => a := ContractCanMove(b, s, t);
      case MissedWriteTable(_) => a := ProbeReadTable(t);
      case MissedReadTable(_) => a := ReadBase(t);
      case PreChecking(todo) =>
        if k :| k in todo {
          a := PreCheck(t, k);
        } else {
          a := PreCheckDone(t);
        }
      case Waiting => a := Acquire(t);
    }
  }

  /** The first transaction that is missing from the table can be started. */
  lemma {:induction false} MissingCanStart(b: Block, table: seq<Entry>, j: nat) returns (i: nat)
    requires Down(b.dag) && j < |b.dag| && !Ran(table, j)
    ensures i < |b.dag| && !Ran(table, i) && forall d :: d in b.dag[i] ==> Ran(table, d)
    decreases j
  {
    if d :| d in b.dag[j] && !Ran(table, d) {
      i := MissingCanStart(b, table, d);
    } else {
      i := j;
    }
  }

  /** A replay is never stuck: until every transaction is in the table and has left, some step is possible. */
  lemma ReplayNeverStuck(c: Config, b: Block, acts: seq<Action>) returns (a: Action)
    requires BlockOk(c, b) && ReplaysFrom(c, b, Init(), acts)
    requires var s := ReplayedTo(c, b, Init(), acts);
             s.txs != map[] || exists j :: 0 <= j < |b.table| && !Ran(s.table, j)
    ensures Scheduled(b, ReplayedTo(c, b, Init(), acts), a)
  {
    ReplayInit(c, b);
    RunTracks(c, b, Init(), acts);
    var s := ReplayedTo(c, b, Init(), acts);
    if s.lock.Some? {
      a := HolderCanMove(c, b, s);
    } else if s.txs != map[] {
      var t :| t in s.txs;
      assert OnTrack(c, b, s.table, t, s.txs[t]);
      a := ContextCanMove(b, s, t);
    } else {
      var j :| 0 <= j < |b.table| && !Ran(s.table, j);
      var i := MissingCanStart(b, s.table, j);
      a := Start(i, Normal);
    }
  }
}
