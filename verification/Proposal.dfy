/** A block as it comes about: deterministic contracts run concurrently on the proposer's snapshot, the rows become the
    block, its graph is built from the rows, and other nodes replay the block along the graph. */
module Proposal {
  import opened Basics
  import opened TxLog
  import opened OptimisticApply
  import opened OptimisticApplyProof
  import opened OptimisticApplyTheorems
  import opened Replay
  import opened Closure
  import opened ConflictGraph
  import opened BuildDag
  import opened DagReplay
  import opened DagReplayTheorems
  import opened DagScheduler
  import opened BuiltGraph

  /** The contract call of every transaction. */
  type Programs = nat -> Program

  /** Contracts are deterministic, and every transaction is one that is checked for conflicts. */
  predicate Obeys(progs: Programs, s: State, a: Action) {
    && Enabled(s, a)
    && match a
       case Start(t, kind) => kind.Checked()
       case ReadOwn(t, k) => progs(t)(s.txs[t].log) == Get(k)
       case ReadRecorded(t, k) => progs(t)(s.txs[t].log) == Get(k)
       case ProbeWriteTable(t, k) => progs(t)(s.txs[t].log) == Get(k)
       case BatchGet(_, _) => false
       case Put(t, k, v) => progs(t)(s.txs[t].log) == Set(k, v)
       case Finish(t, success) => progs(t)(s.txs[t].log) == Done(success)
       case _ => true
  }

  predicate ObeysFrom(c: Config, progs: Programs, s: State, acts: seq<Action>)
    decreases |acts|
  {
    acts != [] ==> Obeys(progs, s, acts[0]) && ObeysFrom(c, progs, Do(c, s, acts[0]), acts[1..])
  }

  lemma {:induction false} ObeysRuns(c: Config, progs: Programs, s: State, acts: seq<Action>)
    requires ObeysFrom(c, progs, s, acts)
    ensures RunsFrom(c, s, acts)
    decreases |acts|
  {
    if acts == [] {
    } else {
      ObeysRuns(c, progs, Do(c, s, acts[0]), acts[1..]);
    }
  }

  /** A context follows its contract and has recorded what it read. */
  predicate CtxRuled(c: Config, prog: Program, x: Ctx) {
    && x.kind.Checked() && !x.phase.Batch? && Follows(prog, x.log) && x.readSet.Keys == RecordedKeys(c, x.log)
    && (x.phase.MissedWriteTable? || x.phase.MissedReadTable? ==> prog(x.log) == Get(x.phase.key))
    && (x.phase.Finished() ==> prog(x.log) == Done(x.success))
  }

  predicate RowRuled(c: Config, prog: Program, e: Entry) {
    e.kind.Checked() && Follows(prog, e.log) && prog(e.log) == Done(e.success) && e.readSet.Keys == RecordedKeys(c, e.log)
  }

  predicate RowsRuled(c: Config, progs: Programs, table: seq<Entry>) {
    forall i :: 0 <= i < |table| ==> RowRuled(c, progs(table[i].tx), table[i])
  }

  predicate Ruled(c: Config, progs: Programs, s: State) {
    && (forall t :: t in s.txs ==> CtxRuled(c, progs(t), s.txs[t]))
    && RowsRuled(c, progs, s.table)
  }

  /** One more event that answers the contract's call. */
  lemma EventRuled(c: Config, prog: Program, x: Ctx, e: Event, y: Ctx)
    requires CtxRuled(c, prog, x) && Answers(prog(x.log), e)
    requires y.log == x.log + [e] && y.kind == x.kind && y.phase.Running?
    requires y.readSet.Keys ==
             if e.Read? && (c.version < OWN_PUTS_NOT_RECORDED || e.key !in LastWrites(x.log)) then x.readSet.Keys + {e.key}
             else x.readSet.Keys
    ensures CtxRuled(c, prog, y)
  {
    RecordedStep(c, x.log, e);
    assert Front(y.log) == x.log;
  }

  lemma OwnRuled(c: Config, progs: Programs, s: State, a: Action)
    requires Obeys(progs, s, a) && (a.ReadOwn? || a.ReadRecorded? || a.Put?)
    requires CtxRuled(c, progs(a.t), s.txs[a.t]) && RecordOk(c, s.txs[a.t])
    ensures a.t in Do(c, s, a).txs && CtxRuled(c, progs(a.t), Do(c, s, a).txs[a.t])
  {
    var x, y := s.txs[a.t], Do(c, s, a).txs[a.t];
    match a {
      case ReadOwn(t, k) => EventRuled(c, progs(t), x, Read(k, x.writeSet[k]), y);
      case ReadRecorded(t, k) => EventRuled(c, progs(t), x, Read(k, x.readSet[k]), y);
      case Put(t, k, v) => EventRuled(c, progs(t), x, Write(k, v), y);
    }
  }

  /** GetKey answered. */
  lemma ObserveRuled(c: Config, prog: Program, x: Ctx, k: Key, v: Value)
    requires CtxRuled(c, prog, x) && RecordOk(c, x) && prog(x.log) == Get(k) && k !in x.writeSet
    ensures CtxRuled(c, prog, Observe(x, k, v))
  {
    EventRuled(c, prog, x, Read(k, v), Observe(x, k, v));
  }

  lemma ProbeRuled(c: Config, progs: Programs, s: State, a: Action)
    requires Obeys(progs, s, a) && (a.ProbeWriteTable? || a.ProbeReadTable? || a.ReadBase?)
    requires CtxRuled(c, progs(a.t), s.txs[a.t]) && RecordOk(c, s.txs[a.t])
    ensures a.t in Do(c, s, a).txs && CtxRuled(c, progs(a.t), Do(c, s, a).txs[a.t])
  {
    var x := s.txs[a.t];
    var k := if a.ProbeWriteTable? then a.key else x.phase.key;
    var v := if a.ProbeWriteTable? && k in s.writeTable then s.writeTable[k].value
             else if a.ProbeReadTable? && k in s.readTable then s.readTable[k].value
             else c.base(k);
    ObserveRuled(c, progs(a.t), x, k, v);
  }

  lemma FinishRuled(c: Config, progs: Programs, s: State, a: Action)
    requires Obeys(progs, s, a) && a.Finish? && a.t in Do(c, s, a).txs && CtxRuled(c, progs(a.t), s.txs[a.t])
    ensures CtxRuled(c, progs(a.t), Do(c, s, a).txs[a.t])
  {
  }

  /** After the run only the phase changes: on the way to the lock, */
  lemma PreCheckShape(c: Config, s: State, a: Action)
    requires (a.PreCheck? || a.PreCheckDone? || a.Acquire?) && Enabled(s, a) && a.t in Do(c, s, a).txs
    ensures var x, y := s.txs[a.t], Do(c, s, a).txs[a.t];
            y == x.(phase := y.phase) && x.phase.Finished() && y.phase.Finished()
  {
  }

  /** under the lock, */
  lemma GateShape(c: Config, s: State, t: nat)
    requires Enabled(s, Gate(t)) && s.txs[t].kind.Checked() && t in Do(c, s, Gate(t)).txs
    ensures var x, y := s.txs[t], Do(c, s, Gate(t)).txs[t];
            y == x.(phase := y.phase) && x.phase.Finished() && y.phase.Finished()
  {
    if !s.sealed {
      GateOpen(c, s, t);
    }
  }

  lemma RecheckShape(c: Config, s: State, a: Action)
    requires (a.Recheck? || a.RecheckDone?) && Enabled(s, a) && a.t in Do(c, s, a).txs
    ensures var x, y := s.txs[a.t], Do(c, s, a).txs[a.t];
            y == x.(phase := y.phase) && x.phase.Finished() && y.phase.Finished()
  {
  }

  /** and while it is put into the tables. */
  lemma PutShape(c: Config, s: State, a: Action)
    requires Enabled(s, a) && (a.PutRead? || a.PutWrite? || a.Append?)
    ensures a.t in s.txs && a.t in Do(c, s, a).txs
    ensures var x, y := s.txs[a.t], Do(c, s, a).txs[a.t];
            y == x.(phase := y.phase) && x.phase.Finished() && y.phase.Finished()
  {
  }

  lemma StepCtxRuled(c: Config, progs: Programs, s: State, a: Action)
    requires Obeys(progs, s, a) && !a.Seal? && a.t in Do(c, s, a).txs
    requires a.t in s.txs ==> CtxRuled(c, progs(a.t), s.txs[a.t]) && RecordOk(c, s.txs[a.t])
    ensures CtxRuled(c, progs(a.t), Do(c, s, a).txs[a.t])
  {
    if a.Start? {
    } else if a.ReadOwn? || a.ReadRecorded? || a.Put? {
      OwnRuled(c, progs, s, a);
    } else if a.ProbeWriteTable? || a.ProbeReadTable? || a.ReadBase? {
      ProbeRuled(c, progs, s, a);
    } else if a.Finish? {
      FinishRuled(c, progs, s, a);
    } else if a.PutRead? || a.PutWrite? || a.Append? {
      PutShape(c, s, a);
    } else if a.PreCheck? || a.PreCheckDone? || a.Acquire? {
      PreCheckShape(c, s, a);
    } else if a.Gate? {
      GateShape(c, s, a.t);
    } else {
      RecheckShape(c, s, a);
    }
  }

  lemma AppendRuled(c: Config, progs: Programs, table: seq<Entry>, e: Entry)
    requires RowsRuled(c, progs, table) && RowRuled(c, progs(e.tx), e)
    ensures RowsRuled(c, progs, table + [e])
  {
  }

  lemma StepRowsRuled(c: Config, progs: Programs, s: State, a: Action)
    requires Enabled(s, a) && RowsRuled(c, progs, s.table)
    requires a.Append? ==> CtxRuled(c, progs(a.t), s.txs[a.t])
    ensures RowsRuled(c, progs, Do(c, s, a).table)
  {
    if a.Append? {
      AppendRuled(c, progs, s.table, Row(a.t, s.txs[a.t]));
    } else {
      StepRecords(c, s, a);
      assert |RowIds(Do(c, s, a).table)| == |RowIds(s.table)|;
    }
  }

  lemma StepOthersStay(c: Config, s: State, a: Action)
    requires Enabled(s, a) && !a.Seal?
    ensures forall u :: u in Do(c, s, a).txs && u != a.t ==> u in s.txs && Do(c, s, a).txs[u] == s.txs[u]
  {
    if Unlocked(a) {
      RunStepShape(c, s, a);
    } else {
      LockStepTxs(c, s, a);
    }
  }

  lemma StepOwnRuled(c: Config, progs: Programs, s: State, a: Action)
    requires Obeys(progs, s, a) && !a.Seal? && Inv(c, s) && Ruled(c, progs, s)
    ensures a.t in Do(c, s, a).txs ==> CtxRuled(c, progs(a.t), Do(c, s, a).txs[a.t])
  {
    if a.t in Do(c, s, a).txs {
      assert a.t in s.txs ==> RecordOk(c, s.txs[a.t]);
      StepCtxRuled(c, progs, s, a);
    }
  }

  lemma CtxsRuled(c: Config, progs: Programs, s: State, s': State, t: nat)
    requires forall u :: u in s.txs ==> CtxRuled(c, progs(u), s.txs[u])
    requires forall u :: u in s'.txs && u != t ==> u in s.txs && s'.txs[u] == s.txs[u]
    requires t in s'.txs ==> CtxRuled(c, progs(t), s'.txs[t])
    ensures forall u :: u in s'.txs ==> CtxRuled(c, progs(u), s'.txs[u])
  {
  }

  lemma StepRuled(c: Config, progs: Programs, s: State, a: Action)
    requires Obeys(progs, s, a) && Inv(c, s) && Ruled(c, progs, s)
    ensures Ruled(c, progs, Do(c, s, a))
  {
    StepRowsRuled(c, progs, s, a);
    if a.Seal? {
    } else {
      StepOwnRuled(c, progs, s, a);
      StepOthersStay(c, s, a);
      CtxsRuled(c, progs, s, Do(c, s, a), a.t);
    }
  }

  lemma {:induction false} RunRuled(c: Config, progs: Programs, s: State, acts: seq<Action>)
    requires ObeysFrom(c, progs, s, acts) && RunsFrom(c, s, acts) && Inv(c, s) && Trusting(c, s) && Ruled(c, progs, s)
    requires c.version >= READS_OF_FAILED_RUNS_DROPPED || NoFailure(acts)
    ensures Ruled(c, progs, After(c, s, acts))
    decreases |acts|
  {
    if acts == [] {
    } else {
      StepRuled(c, progs, s, acts[0]);
      StepKeeps(c, s, acts[0]);
      StepTrusting(c, s, acts[0]);
      RunRuled(c, progs, Do(c, s, acts[0]), acts[1..]);
    }
  }

  // --- the block ---

  /** The rows numbered in the order of the table. */
  function Numbered(table: seq<Entry>): (rows: seq<Entry>)
    ensures |rows| == |table| && forall i :: 0 <= i < |table| ==> rows[i] == table[i].(tx := i)
  {
    seq(|table|, i requires 0 <= i < |table| => table[i].(tx := i))
  }

  /** The contract calls in that order. */
  function Calls(progs: Programs, table: seq<Entry>): (calls: seq<Program>)
    ensures |calls| == |table| && forall i :: 0 <= i < |table| ==> calls[i] == progs(table[i].tx)
  {
    if table == [] then [] else Calls(progs, Front(table)) + [progs(Last(table).tx)]
  }

  /** Rows with the same writes leave the same values. */
  lemma {:induction false} SameValue(base: Key -> Value, a: seq<Entry>, b: seq<Entry>, k: Key)
    requires |a| == |b| && forall i :: 0 <= i < |a| ==> a[i].writes == b[i].writes
    ensures SerialValue(base, a, k) == SerialValue(base, b, k)
    decreases |a|
  {
    if a == [] {
    } else {
      SameValue(base, Front(a), Front(b), k);
    }
  }

  lemma {:induction false} SameSerialLog(base: Key -> Value, a: seq<Entry>, b: seq<Entry>, log: seq<Event>)
    requires |a| == |b| && forall i :: 0 <= i < |a| ==> a[i].writes == b[i].writes
    ensures SerialLog(base, a, log) <==> SerialLog(base, b, log)
    decreases |log|
  {
    if log == [] {
    } else {
      SameSerialLog(base, a, b, Front(log));
      SameValue(base, a, b, Last(log).key);
    }
  }

  /** The rows of a proposal are a serial block. */
  lemma ProposedSerial(c: Config, progs: Programs, table: seq<Entry>)
    requires RowsRuled(c, progs, table) && Serializable(c, table)
    ensures SerialBlock(c, Calls(progs, table), Numbered(table))
  {
    var rows, calls := Numbered(table), Calls(progs, table);
    forall i | 0 <= i < |rows| ensures RanAlone(c, calls[i], rows[..i], rows[i]) {
      assert RowRuled(c, progs(table[i].tx), table[i]);
      SameSerialLog(c.base, table[..i], rows[..i], table[i].log);
    }
  }

  /** `txs` lists, by bare key, at least the keys of every row's read and write set. */
  predicate Lists(bare: TxLog.Key -> ConflictGraph.Key, table: seq<Entry>, txs: seq<ConflictGraph.RwKeys>) {
    && |txs| == |table|
    && (forall i, k :: 0 <= i < |table| && k in table[i].readSet ==> bare(k) in txs[i].readKeys)
    && (forall i, k :: 0 <= i < |table| && k in table[i].writes ==> bare(k) in txs[i].writeKeys)
  }

  lemma ProposedDescribed(c: Config, progs: Programs, table: seq<Entry>, bare: TxLog.Key -> ConflictGraph.Key,
                          txs: seq<ConflictGraph.RwKeys>)
    requires RowsRuled(c, progs, table) && Lists(bare, table, txs)
    ensures Describes(c, bare, Numbered(table), txs)
  {
    var rows := Numbered(table);
    forall i, k | 0 <= i < |rows| && k in RecordedKeys(c, rows[i].log) ensures bare(k) in txs[i].readKeys {
      assert RowRuled(c, progs(table[i].tx), table[i]);
      assert k in table[i].readSet;
    }
  }

  /** The block that a table of rows becomes, with the graph `dag`. */
  function Proposed(progs: Programs, bare: TxLog.Key -> ConflictGraph.Key, table: seq<Entry>,
                    txs: seq<ConflictGraph.RwKeys>, dag: seq<seq<nat>>): Block
  {
    Block(Calls(progs, table), bare, Numbered(table), txs, Edges(dag))
  }

  /** The proposer's snapshot after `acts`. */
  ghost predicate ProposedBy(c: Config, progs: Programs, acts: seq<Action>, s: State) {
    && ObeysFrom(c, progs, Init(), acts) && RunsFrom(c, Init(), acts) && After(c, Init(), acts) == s
    && (c.version >= READS_OF_FAILED_RUNS_DROPPED || NoFailure(acts))
  }

  lemma ProposedRuled(c: Config, progs: Programs, acts: seq<Action>, s: State)
    requires ProposedBy(c, progs, acts, s)
    ensures Inv(c, s) && Trusting(c, s) && Ruled(c, progs, s)
  {
    InitOk(c);
    RunKeeps(c, Init(), acts);
    RunTrusting(c, Init(), acts);
    RunRuled(c, progs, Init(), acts);
  }

  lemma {:induction false} RunTrusting(c: Config, s: State, acts: seq<Action>)
    requires Trusting(c, s) && RunsFrom(c, s, acts) && (c.version >= READS_OF_FAILED_RUNS_DROPPED || NoFailure(acts))
    ensures Trusting(c, After(c, s, acts))
    decreases |acts|
  {
    if acts == [] {
    } else {
      StepTrusting(c, s, acts[0]);
      RunTrusting(c, Do(c, s, acts[0]), acts[1..]);
    }
  }

  /** Without failing finishes no row is of a failed run. */
  predicate RowsSucceed(c: Config, table: seq<Entry>) {
    c.version >= READS_OF_FAILED_RUNS_DROPPED || forall i :: 0 <= i < |table| ==> table[i].success
  }

  lemma {:induction false} RunRowsSucceed(c: Config, s: State, acts: seq<Action>)
    requires Trusting(c, s) && RunsFrom(c, s, acts) && (c.version >= READS_OF_FAILED_RUNS_DROPPED || NoFailure(acts))
    requires RowsSucceed(c, s.table)
    ensures RowsSucceed(c, After(c, s, acts).table)
    decreases |acts|
  {
    if acts == [] {
    } else {
      var a := acts[0];
      StepTrusting(c, s, a);
      StepRowsSucceed(c, s, a);
      RunRowsSucceed(c, Do(c, s, a), acts[1..]);
    }
  }

  lemma StepRowsSucceed(c: Config, s: State, a: Action)
    requires Trusting(c, s) && Enabled(s, a) && RowsSucceed(c, s.table)
    ensures RowsSucceed(c, Do(c, s, a).table)
  {
    if !a.Append? {
      StepRecords(c, s, a);
      assert |RowIds(Do(c, s, a).table)| == |RowIds(s.table)|;
    }
  }

  /** The proposed block is one that can be replayed, if the graph covers the conflicts of its key lists. */
  lemma ProposedOk(c: Config, progs: Programs, acts: seq<Action>, s: State, bare: TxLog.Key -> ConflictGraph.Key,
                   txs: seq<ConflictGraph.RwKeys>, dag: seq<seq<nat>>)
    requires ProposedBy(c, progs, acts, s) && Lists(bare, s.table, txs)
    requires |dag| == |txs| && Down(Edges(dag))
    requires forall i, j :: 0 <= i < |txs| && Conflict(txs, i, j) ==> j in Reach(Edges(dag), i)
    ensures BlockOk(c, Proposed(progs, bare, s.table, txs, dag))
  {
    ProposedRuled(c, progs, acts, s);
    ProposedSerial(c, progs, s.table);
    ProposedDescribed(c, progs, s.table, bare, txs);
    InitOk(c);
    RunRowsSucceed(c, Init(), acts);
  }

  /** A replay of the block has the block's rows: the values read, the results and the writes of the proposer's rows.  Once
      every transaction has run, its snapshot answers what the proposer's answers. */
  ghost predicate SameOutcome(c: Config, s: State, b: Block, replay: seq<Action>)
    requires ReplaysFrom(c, b, Init(), replay)
  {
    var s' := ReplayedTo(c, b, Init(), replay);
    && SameRows(Numbered(s.table), s'.table)
    && ((forall j :: 0 <= j < |s.table| ==> Ran(s'.table, j)) ==>
          forall k :: k !in Pending(s) ==> GetKey(c, s', k) == GetKey(c, s, k))
  }

  lemma ReplaySameOutcome(c: Config, progs: Programs, acts: seq<Action>, s: State, b: Block, replay: seq<Action>)
    requires ProposedBy(c, progs, acts, s) && BlockOk(c, b) && b.table == Numbered(s.table)
    requires ReplaysFrom(c, b, Init(), replay)
    ensures SameOutcome(c, s, b, replay)
  {
    ReplayAlongGraph(c, b, replay);
    Serializability(c, acts);
    var s' := ReplayedTo(c, b, Init(), replay);
    if forall j :: 0 <= j < |s.table| ==> Ran(s'.table, j) {
      forall k | k !in Pending(s) ensures GetKey(c, s', k) == GetKey(c, s, k) {
        SameValue(c.base, s.table, b.table, k);
      }
    }
  }

  /** Every replay of the block gives the proposer's rows and state. */
  ghost predicate Replays(c: Config, s: State, b: Block) {
    forall replay :: ReplaysFrom(c, b, Init(), replay) ==> SameOutcome(c, s, b, replay)
  }

  lemma CoveredReplays(c: Config, progs: Programs, acts: seq<Action>, s: State, bare: TxLog.Key -> ConflictGraph.Key,
                       txs: seq<ConflictGraph.RwKeys>, dag: seq<seq<nat>>)
    requires ProposedBy(c, progs, acts, s) && Lists(bare, s.table, txs)
    requires |dag| == |txs| && Down(Edges(dag))
    requires forall i, j :: 0 <= i < |txs| && Conflict(txs, i, j) ==> j in Reach(Edges(dag), i)
    ensures Replays(c, s, Proposed(progs, bare, s.table, txs, dag))
  {
    var b := Proposed(progs, bare, s.table, txs, dag);
    ProposedOk(c, progs, acts, s, bare, txs, dag);
    forall replay | ReplaysFrom(c, b, Init(), replay) ensures SameOutcome(c, s, b, replay) {
      ReplaySameOutcome(c, progs, acts, s, b, replay);
    }
  }

  /** The scheduler releases exactly what a replay may start: with the finished transactions in the table, a transaction can
      start if and only if it is released, not finished and not under way. */
  lemma ReleasedMayStart(b: Block, s: State, dag: seq<seq<nat>>, remain: map<nat, set<nat>>, done: set<nat>,
                         released: set<nat>, t: nat)
    requires AllWait(dag, remain, done, released) && b.dag == Edges(dag) && |b.progs| == |dag| && t < |dag|
    requires (forall d :: d in done <==> 0 <= d < |dag| && Ran(s.table, d)) && Accepted(dag)
    ensures Scheduled(b, s, Start(t, Normal)) <==> t in released && t !in done && t !in s.txs
  {
    assert Waits(dag, remain, done, released, t);
    assert RowAccepted(dag[t], t);
    assert forall d :: d in dag[t] ==> d < |dag|;
  }
}
