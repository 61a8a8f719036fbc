/** A block is replayed on the concurrent snapshot along its dependency graph: a transaction is started once its
    neighbours are in the table, and everything else interleaves freely. */
module DagReplay {
  import opened Basics
  import opened TxLog
  import opened OptimisticApply
  import opened OptimisticApplyProof
  import opened OptimisticApplyTheorems
  import opened Replay
  import opened Closure

  /** A block as its proposer built it, and what the replaying node has. */
  datatype Block = Block(progs: seq<Program>, bare: Key -> ConflictGraph.Key, table: seq<Entry>, txs: seq<RwKeys>, dag: Graph)

  /** The rows are the serial execution, the key lists describe them, and the graph covers every conflict. */
  ghost predicate BlockOk(c: Config, b: Block) {
    && SerialBlock(c, b.progs, b.table)
    && Describes(c, b.bare, b.table, b.txs)
    && Down(b.dag) && |b.dag| == |b.txs|
    && (forall i, j :: 0 <= i < |b.txs| && ConflictGraph.Conflict(b.txs, i, j) ==> j in Reach(b.dag, i))
    && (c.version >= READS_OF_FAILED_RUNS_DROPPED || forall i :: 0 <= i < |b.table| ==> b.table[i].success)
  }

  /** What the contract of a running transaction asks for next. */
  function Next(b: Block, s: State, t: nat): Call
    requires t in s.txs && t < |b.progs|
  {
    b.progs[t](s.txs[t].log)
  }

  /** The actions of a replay: one start per transaction, after its neighbours, and contracts that are
      deterministic. */
  predicate Scheduled(b: Block, s: State, a: Action) {
    && Enabled(s, a)
    && !a.Seal?
    && a.t < |b.progs| && a.t < |b.dag|
    && match a
       case Start(t, kind) => kind.Checked() && !Ran(s.table, t) && forall d :: d in b.dag[t] ==> Ran(s.table, d)
       case ReadOwn(t, k) => Next(b, s, t) == Get(k)
       case ReadRecorded(t, k) => Next(b, s, t) == Get(k)
       case ProbeWriteTable(t, k) => Next(b, s, t) == Get(k)
       case BatchGet(_, _) => false
       case Put(t, k, v) => Next(b, s, t) == Set(k, v)
       case Finish(t, success) => Next(b, s, t) == Done(success)
       case _ => true
  }

  /** A context of transaction `t` is on its way to the block's row, and what it conflicts with ran before it. */
  ghost predicate OnTrack(c: Config, b: Block, table: seq<Entry>, t: nat, x: Ctx) {
    && t < |b.table| && t < |b.progs| && t < |b.dag| && t < |b.txs| && x.kind.Checked()
    && x.execSeq <= |table|
    && x.log <= b.table[t].log
    && x.readSet.Keys == RecordedKeys(c, x.log)
    && (x.phase.MissedWriteTable? || x.phase.MissedReadTable? ==> b.progs[t](x.log) == Get(x.phase.key))
    && (x.phase.Finished() ==> x.log == b.table[t].log && x.success == b.table[t].success)
    && (x.phase.Finished() || x.success) && !x.phase.Batch?
    && (x.phase.Stored? <==> Ran(table, t))
    && (forall d :: d in b.dag[t] ==> Ran(table[..x.execSeq], d))
    && (forall j :: 0 <= j < |b.txs| && ConflictGraph.Conflict(b.txs, t, j) ==> Ran(table[..x.execSeq], j))
  }

  /** Rows come after their neighbours. */
  predicate GraphOrder(b: Block, table: seq<Entry>) {
    forall p, d :: 0 <= p < |table| && table[p].tx < |b.dag| && d in b.dag[table[p].tx] ==> Ran(table[..p], d)
  }

  ghost predicate ReplayInv(c: Config, b: Block, s: State) {
    && Inv(c, s)
    && !s.sealed
    && Respects(b.txs, s.table) && SameRows(b.table, s.table) && GraphOrder(b, s.table)
    && (forall t :: t in s.txs ==> OnTrack(c, b, s.table, t, s.txs[t]))
  }

  lemma {:induction false} ReachedRan(b: Block, table: seq<Entry>, i: nat, j: nat)
    requires Down(b.dag) && i < |b.dag| && GraphOrder(b, table) && j in Reach(b.dag, i) && j != i
    requires forall d :: d in b.dag[i] ==> Ran(table, d)
    ensures Ran(table, j)
    decreases i
  {
    var d :| d in b.dag[i] && j in Reach(b.dag, d);
    if j != d {
      var p :| 0 <= p < |table| && table[p].tx == d;
      forall e | e in b.dag[d] ensures Ran(table, e) {
        RanBefore(table, p, e);
      }
      ReachedRan(b, table, d, j);
    }
  }

  /** A key an active transaction uses is not touched by anyone else. */
  lemma NotTouched(c: Config, b: Block, s: State, t: nat, k: Key)
    requires BlockOk(c, b) && ReplayInv(c, b, s) && t in s.txs && !Ran(s.table, t)
    requires !s.txs[t].phase.Putting?
    requires k in RecordedKeys(c, b.table[t].log) || k in b.table[t].writes
    ensures !Touched(s, k, s.txs[t].execSeq)
  {
    var e := s.txs[t].execSeq;
    assert OnTrack(c, b, s.table, t, s.txs[t]);
    var w := LastWriter(s.table, k);
    if w >= e {
      WriterElsewhere(c, b, s.table, t, e, w, k);
    }
    if k in Pending(s) {
      var u := s.lock.value;
      assert OnTrack(c, b, s.table, u, s.txs[u]) && RecordOk(c, s.txs[u]);
      assert k in b.table[u].writes && u != t && !Ran(s.table, u);
      ActiveDoNotConflict(c, b, s, t, u, k);
    }
  }

  /** A row written after `t` started does not write a key `t` uses. */
  lemma WriterElsewhere(c: Config, b: Block, table: seq<Entry>, t: nat, e: nat, w: nat, k: Key)
    requires BlockOk(c, b) && Respects(b.txs, table) && SameRows(b.table, table)
    requires t < |b.table| && !Ran(table, t) && e <= w < |table| && k in table[w].writes
    requires forall j :: 0 <= j < |b.txs| && ConflictGraph.Conflict(b.txs, t, j) ==> Ran(table[..e], j)
    ensures !(k in RecordedKeys(c, b.table[t].log) || k in b.table[t].writes)
  {
    var j := table[w].tx;
    if k in RecordedKeys(c, b.table[t].log) || k in b.table[t].writes {
      assert b.bare(k) in b.txs[j].writeKeys;
      assert b.bare(k) in b.txs[t].readKeys || b.bare(k) in b.txs[t].writeKeys;
      assert j != t;
      if j < t {
        assert ConflictGraph.Conflict(b.txs, t, j);
      } else {
        assert ConflictGraph.Conflict(b.txs, j, t);
        RanBefore(table, w, t);
      }
    }
  }

  /** Two active transactions do not conflict. */
  lemma ActiveDoNotConflict(c: Config, b: Block, s: State, t: nat, u: nat, k: Key)
    requires BlockOk(c, b) && t in s.txs && u in s.txs && t != u && !Ran(s.table, t) && !Ran(s.table, u)
    requires OnTrack(c, b, s.table, t, s.txs[t]) && OnTrack(c, b, s.table, u, s.txs[u])
    requires k in b.table[u].writes
    ensures !(k in RecordedKeys(c, b.table[t].log) || k in b.table[t].writes)
  {
    if k in RecordedKeys(c, b.table[t].log) || k in b.table[t].writes {
      assert b.bare(k) in b.txs[u].writeKeys;
      assert b.bare(k) in b.txs[t].readKeys || b.bare(k) in b.txs[t].writeKeys;
      if u < t {
        assert ConflictGraph.Conflict(b.txs, t, u);
        RanBefore(s.table, s.txs[t].execSeq, u);
      } else {
        assert ConflictGraph.Conflict(b.txs, u, t);
        RanBefore(s.table, s.txs[u].execSeq, t);
      }
    }
  }

  /** An active transaction finds its keys as they were in the block. */
  lemma FindsBlockValue(c: Config, b: Block, s: State, t: nat, k: Key)
    requires BlockOk(c, b) && ReplayInv(c, b, s) && t in s.txs && !Ran(s.table, t)
    requires k in RecordedKeys(c, b.table[t].log)
    ensures SerialValue(c.base, s.table, k) == SerialValue(c.base, b.table[..t], k)
  {
    var e := s.txs[t].execSeq;
    forall j | 0 <= j < |b.txs| && ConflictGraph.Conflict(b.txs, t, j) ensures Ran(s.table, j) {
      RanBefore(s.table, e, j);
    }
    ReadyFindsBlockValue(c, b.bare, b.table, b.txs, s.table, t, k);
  }

  /** The event of the block's log that answers the next call. */
  lemma NextEvent(c: Config, b: Block, t: nat, log: seq<Event>)
    requires BlockOk(c, b) && t < |b.table| && log <= b.table[t].log
    ensures b.progs[t](log).Done? ==> log == b.table[t].log && b.progs[t](log) == Done(b.table[t].success)
    ensures !b.progs[t](log).Done? ==>
              && |log| < |b.table[t].log|
              && var e := b.table[t].log[|log|];
                 && Answers(b.progs[t](log), e)
                 && (e.Read? && e.key in LastWrites(log) ==> e.value == LastWrites(log)[e.key])
                 && (e.Read? && e.key !in LastWrites(log) ==>
                       e.key in RecordedKeys(c, b.table[t].log) && e.value == SerialValue(c.base, b.table[..t], e.key))
  {
    var whole := b.table[t].log;
    assert RanAlone(c, b.progs[t], b.table[..t], b.table[t]);
    assert log == whole[..|log|];
    assert whole[..|whole|] == whole;
    if |log| < |whole| {
      PrefixOfRun(c, b.progs[t], b.table[..t], whole, |log|);
    }
  }

  /** A context that did the block's next event is still on track. */
  lemma TrackEvent(c: Config, b: Block, table: seq<Entry>, t: nat, x: Ctx, e: Event, y: Ctx)
    requires OnTrack(c, b, table, t, x) && !x.phase.Finished()
    requires |x.log| < |b.table[t].log| && b.table[t].log[|x.log|] == e
    requires y.log == x.log + [e] && y.phase.Running? && y.kind == x.kind && y.execSeq == x.execSeq
    requires y.success == x.success
    requires y.readSet.Keys == RecordedKeys(c, y.log)
    ensures OnTrack(c, b, table, t, y)
  {
    assert x.log + [e] <= b.table[t].log;
  }

  lemma RecordedStep(c: Config, log: seq<Event>, e: Event)
    ensures RecordedKeys(c, log + [e]) ==
            if e.Read? && (c.version < OWN_PUTS_NOT_RECORDED || e.key !in LastWrites(log))
            then RecordedKeys(c, log) + {e.key} else RecordedKeys(c, log)
  {
    assert Front(log + [e]) == log;
  }

  /** The value of `k` that a context was given by the snapshot is the block's. */
  lemma SeenIsBlockValue(c: Config, b: Block, s: State, t: nat, k: Key, x: Ctx)
    requires BlockOk(c, b) && ReplayInv(c, b, s) && t in s.txs && !Ran(s.table, t) && !s.txs[t].phase.Putting?
    requires x.execSeq == s.txs[t].execSeq && ViewOk(c, s, x) && k in x.seen
    requires k in RecordedKeys(c, b.table[t].log)
    ensures x.seen[k] == SerialValue(c.base, b.table[..t], k)
  {
    NotTouched(c, b, s, t, k);
    FindsBlockValue(c, b, s, t, k);
  }

  lemma ReplayTrusting(c: Config, b: Block, s: State)
    requires BlockOk(c, b) && ReplayInv(c, b, s)
    ensures Trusting(c, s)
  {
    forall t | t in s.txs && c.version < READS_OF_FAILED_RUNS_DROPPED ensures s.txs[t].success {
      assert OnTrack(c, b, s.table, t, s.txs[t]);
    }
  }

  /** A step that only changes one context keeps the replay on track if that context is. */
  lemma TrackLocal(c: Config, b: Block, s: State, t: nat, y: Ctx)
    requires ReplayInv(c, b, s) && Inv(c, WithCtx(s, t, y)) && OnTrack(c, b, s.table, t, y)
    ensures ReplayInv(c, b, WithCtx(s, t, y))
  {
  }

  /** A context that read its own put. */
  function ReadOwnCtx(c: Config, x: Ctx, k: Key): Ctx
    requires k in x.writeSet
  {
    x.(log := x.log + [Read(k, x.writeSet[k])],
       readSet := if c.version < OWN_PUTS_NOT_RECORDED then x.readSet[k := x.writeSet[k]] else x.readSet)
  }

  lemma ReadOwnCtxTracks(c: Config, b: Block, table: seq<Entry>, t: nat, x: Ctx, k: Key)
    requires BlockOk(c, b) && OnTrack(c, b, table, t, x) && x.phase.Running? && b.progs[t](x.log) == Get(k)
    requires x.writeSet == LastWrites(x.log) && k in x.writeSet
    ensures OnTrack(c, b, table, t, ReadOwnCtx(c, x, k))
  {
    NextEvent(c, b, t, x.log);
    RecordedStep(c, x.log, Read(k, x.writeSet[k]));
    TrackEvent(c, b, table, t, x, Read(k, x.writeSet[k]), ReadOwnCtx(c, x, k));
  }

  lemma ReadOwnTracks(c: Config, b: Block, s: State, a: Action)
    requires BlockOk(c, b) && ReplayInv(c, b, s) && a.ReadOwn? && Scheduled(b, s, a)
    ensures ReplayInv(c, b, Do(c, s, a))
  {
    var t, k := a.t, a.key;
    assert OnTrack(c, b, s.table, t, s.txs[t]) && RecordOk(c, s.txs[t]);
    ReadOwnKeeps(c, s, a);
    ReadOwnCtxTracks(c, b, s.table, t, s.txs[t], k);
    TrackLocal(c, b, s, t, ReadOwnCtx(c, s.txs[t], k));
  }

  lemma PutCtxTracks(c: Config, b: Block, table: seq<Entry>, t: nat, x: Ctx, k: Key, v: Value)
    requires BlockOk(c, b) && OnTrack(c, b, table, t, x) && x.phase.Running? && b.progs[t](x.log) == Set(k, v)
    ensures OnTrack(c, b, table, t, x.(log := x.log + [Write(k, v)], writeSet := x.writeSet[k := v]))
  {
    NextEvent(c, b, t, x.log);
    RecordedStep(c, x.log, Write(k, v));
    TrackEvent(c, b, table, t, x, Write(k, v), x.(log := x.log + [Write(k, v)], writeSet := x.writeSet[k := v]));
  }

  lemma PutTracks(c: Config, b: Block, s: State, a: Action)
    requires BlockOk(c, b) && ReplayInv(c, b, s) && a.Put? && Scheduled(b, s, a)
    ensures ReplayInv(c, b, Do(c, s, a))
  {
    var t, k, v := a.t, a.key, a.value;
    assert OnTrack(c, b, s.table, t, s.txs[t]);
    PutKeeps(c, s, a);
    PutCtxTracks(c, b, s.table, t, s.txs[t], k, v);
    TrackLocal(c, b, s, t, Do(c, s, a).txs[t]);
  }

  lemma ReadRecordedCtxTracks(c: Config, b: Block, table: seq<Entry>, t: nat, x: Ctx, k: Key)
    requires BlockOk(c, b) && OnTrack(c, b, table, t, x) && x.phase.Running? && b.progs[t](x.log) == Get(k)
    requires k in x.readSet && k !in LastWrites(x.log)
    requires k in RecordedKeys(c, b.table[t].log) ==> x.readSet[k] == SerialValue(c.base, b.table[..t], k)
    ensures OnTrack(c, b, table, t, x.(log := x.log + [Read(k, x.readSet[k])]))
  {
    NextEvent(c, b, t, x.log);
    RecordedStep(c, x.log, Read(k, x.readSet[k]));
    TrackEvent(c, b, table, t, x, Read(k, x.readSet[k]), x.(log := x.log + [Read(k, x.readSet[k])]));
  }

  lemma ReadRecordedTracks(c: Config, b: Block, s: State, a: Action)
    requires BlockOk(c, b) && ReplayInv(c, b, s) && a.ReadRecorded? && Scheduled(b, s, a)
    ensures ReplayInv(c, b, Do(c, s, a))
  {
    var t, k := a.t, a.key;
    var x := s.txs[t];
    assert OnTrack(c, b, s.table, t, x) && RecordOk(c, x) && ViewOk(c, s, x);
    ReadRecordedKeeps(c, s, a);
    if k in RecordedKeys(c, b.table[t].log) {
      SeenIsBlockValue(c, b, s, t, k, x);
    }
    ReadRecordedCtxTracks(c, b, s.table, t, x, k);
    TrackLocal(c, b, s, t, x.(log := x.log + [Read(k, x.readSet[k])]));
  }

  /** A context that has just been given `v` by GetKey, in the state it was in before. */
  lemma ObservedView(c: Config, s: State, t: nat, y: Ctx)
    requires LockOk(s) && t in s.txs && !s.txs[t].phase.HoldsLock() && Inv(c, WithCtx(s, t, y))
    ensures RecordOk(c, y) && ViewOk(c, s, y)
  {
    var s' := WithCtx(s, t, y);
    assert ViewOk(c, s', s'.txs[t]);
    assert Pending(s') == Pending(s);
    ViewsCarryOver(c, s', s, y);
  }

  lemma ObservedCtxTracks(c: Config, b: Block, table: seq<Entry>, t: nat, x: Ctx, k: Key, v: Value)
    requires BlockOk(c, b) && OnTrack(c, b, table, t, x) && !x.phase.Finished() && b.progs[t](x.log) == Get(k)
    requires k !in LastWrites(x.log)
    requires k in RecordedKeys(c, b.table[t].log) ==> v == SerialValue(c.base, b.table[..t], k)
    ensures OnTrack(c, b, table, t, Observe(x, k, v))
  {
    NextEvent(c, b, t, x.log);
    RecordedStep(c, x.log, Read(k, v));
    TrackEvent(c, b, table, t, x, Read(k, v), Observe(x, k, v));
  }

  lemma ObservedTracks(c: Config, b: Block, s: State, t: nat, k: Key, v: Value)
    requires BlockOk(c, b) && ReplayInv(c, b, s) && t in s.txs && !s.txs[t].phase.Finished()
    requires t < |b.progs| && Next(b, s, t) == Get(k) && k !in s.txs[t].writeSet
    requires Inv(c, WithCtx(s, t, Observe(s.txs[t], k, v)))
    ensures ReplayInv(c, b, WithCtx(s, t, Observe(s.txs[t], k, v)))
  {
    var x, y := s.txs[t], Observe(s.txs[t], k, v);
    assert OnTrack(c, b, s.table, t, x) && RecordOk(c, x);
    ObservedView(c, s, t, y);
    if k in RecordedKeys(c, b.table[t].log) {
      SeenIsBlockValue(c, b, s, t, k, y);
    }
    ObservedCtxTracks(c, b, s.table, t, x, k, v);
    TrackLocal(c, b, s, t, y);
  }

  lemma ProbeWriteTableTracks(c: Config, b: Block, s: State, a: Action)
    requires BlockOk(c, b) && ReplayInv(c, b, s) && a.ProbeWriteTable? && Scheduled(b, s, a)
    ensures ReplayInv(c, b, Do(c, s, a))
  {
    var t, k := a.t, a.key;
    ProbeWriteTableKeeps(c, s, a);
    if k in s.writeTable {
      ObservedTracks(c, b, s, t, k, s.writeTable[k].value);
    } else {
      assert OnTrack(c, b, s.table, t, s.txs[t]);
      TrackLocal(c, b, s, t, s.txs[t].(phase := MissedWriteTable(k)));
    }
  }

  lemma ProbedTracks(c: Config, b: Block, s: State, t: nat)
    requires BlockOk(c, b) && ReplayInv(c, b, s) && t in s.txs && s.txs[t].phase.MissedWriteTable?
    requires Inv(c, WithCtx(s, t, Probed(s, s.txs[t])))
    ensures ReplayInv(c, b, WithCtx(s, t, Probed(s, s.txs[t])))
  {
    var k := s.txs[t].phase.key;
    assert OnTrack(c, b, s.table, t, s.txs[t]) && RecordOk(c, s.txs[t]);
    if k in s.readTable {
      ObservedTracks(c, b, s, t, k, s.readTable[k].value);
    } else {
      TrackLocal(c, b, s, t, s.txs[t].(phase := MissedReadTable(k)));
    }
  }

  lemma ProbeReadTableTracks(c: Config, b: Block, s: State, a: Action)
    requires BlockOk(c, b) && ReplayInv(c, b, s) && a.ProbeReadTable? && Scheduled(b, s, a)
    ensures ReplayInv(c, b, Do(c, s, a))
  {
    ProbeReadTableKeeps(c, s, a);
    assert Do(c, s, a) == WithCtx(s, a.t, Probed(s, s.txs[a.t]));
    ProbedTracks(c, b, s, a.t);
  }

  lemma ReadBaseTracks(c: Config, b: Block, s: State, a: Action)
    requires BlockOk(c, b) && ReplayInv(c, b, s) && a.ReadBase? && Scheduled(b, s, a)
    ensures ReplayInv(c, b, Do(c, s, a))
  {
    var t := a.t;
    var k := s.txs[t].phase.key;
    assert OnTrack(c, b, s.table, t, s.txs[t]) && RecordOk(c, s.txs[t]);
    ReadBaseKeeps(c, s, a);
    ObservedTracks(c, b, s, t, k, c.base(k));
  }

  lemma StartTracks(c: Config, b: Block, s: State, a: Action)
    requires BlockOk(c, b) && ReplayInv(c, b, s) && a.Start? && Scheduled(b, s, a)
    ensures ReplayInv(c, b, Do(c, s, a))
  {
    var t, kind := a.t, a.kind;
    var y := Do(c, s, a).txs[t];
    StartKeeps(c, s, a);
    assert s.table[..|s.table|] == s.table;
    forall j | 0 <= j < |b.txs| && ConflictGraph.Conflict(b.txs, t, j) ensures Ran(s.table, j) {
      ReachedRan(b, s.table, t, j);
    }
    TrackLocal(c, b, s, t, y);
  }

  /** A context whose contract is done has the block's log and result. */
  lemma FinishCtxTracks(c: Config, b: Block, table: seq<Entry>, t: nat, x: Ctx, success: bool, y: Ctx)
    requires BlockOk(c, b) && OnTrack(c, b, table, t, x) && x.phase.Running? && b.progs[t](x.log) == Done(success)
    requires y == x.(success := success, writes := y.writes, phase := y.phase)
    requires y.phase.PreChecking? || y.phase.Waiting?
    ensures OnTrack(c, b, table, t, y)
  {
    NextEvent(c, b, t, x.log);
  }

  lemma FinishTracks(c: Config, b: Block, s: State, a: Action)
    requires BlockOk(c, b) && ReplayInv(c, b, s) && a.Finish? && Scheduled(b, s, a)
    ensures ReplayInv(c, b, Do(c, s, a))
  {
    var x, y := s.txs[a.t], Do(c, s, a).txs[a.t];
    assert OnTrack(c, b, s.table, a.t, x);
    FinishKeeps(c, s, a);
    FinishCtxTracks(c, b, s.table, a.t, x, a.success, y);
    TrackLocal(c, b, s, a.t, y);
  }

  /** A finished active transaction has no conflict on any key it recorded. */
  lemma NeverConflicts(c: Config, b: Block, s: State, t: nat, k: Key)
    requires BlockOk(c, b) && ReplayInv(c, b, s) && t in s.txs && s.txs[t].phase.Finished() && !s.txs[t].phase.Stored?
    requires k in s.txs[t].readSet && !s.txs[t].phase.Putting?
    ensures !Conflicts(s, s.txs[t], k)
  {
    assert OnTrack(c, b, s.table, t, s.txs[t]);
    NotTouched(c, b, s, t, k);
    assert CellAt(s.writeTable, k) == ExpectedCell(s, k);
  }

  /** A finished context that moves to another phase with the same run stays on track. */
  lemma TrackPhase(c: Config, b: Block, table: seq<Entry>, t: nat, x: Ctx, phase: Phase)
    requires OnTrack(c, b, table, t, x) && x.phase.Finished() && phase.Finished() && !x.phase.Stored? && !phase.Stored?
    ensures OnTrack(c, b, table, t, x.(phase := phase))
  {
  }

  lemma PreCheckTracks(c: Config, b: Block, s: State, a: Action)
    requires BlockOk(c, b) && ReplayInv(c, b, s) && a.PreCheck? && Scheduled(b, s, a)
    ensures ReplayInv(c, b, Do(c, s, a)) && a.t in Do(c, s, a).txs
  {
    var t, k := a.t, a.key;
    assert OnTrack(c, b, s.table, t, s.txs[t]) && RecordOk(c, s.txs[t]);
    PreCheckKeeps(c, s, a);
    NeverConflicts(c, b, s, t, k);
    TrackPhase(c, b, s.table, t, s.txs[t], Do(c, s, a).txs[t].phase);
    TrackLocal(c, b, s, t, Do(c, s, a).txs[t]);
  }

  lemma PreCheckDoneTracks(c: Config, b: Block, s: State, a: Action)
    requires BlockOk(c, b) && ReplayInv(c, b, s) && a.PreCheckDone? && Scheduled(b, s, a)
    ensures ReplayInv(c, b, Do(c, s, a))
  {
    var t := a.t;
    PreCheckDoneKeeps(c, s, a);
    TrackPhase(c, b, s.table, t, s.txs[t], Waiting);
    TrackLocal(c, b, s, t, Do(c, s, a).txs[t]);
  }

  /** A step of the lock holder that leaves the table alone and stays on track. */
  lemma TrackHolder(c: Config, b: Block, s: State, t: nat, y: Ctx, s': State)
    requires ReplayInv(c, b, s) && Inv(c, s') && OnTrack(c, b, s.table, t, y)
    requires s'.txs == s.txs[t := y] && s'.table == s.table && s'.sealed == s.sealed
    ensures ReplayInv(c, b, s')
  {
  }

  lemma AcquireTracks(c: Config, b: Block, s: State, a: Action)
    requires BlockOk(c, b) && ReplayInv(c, b, s) && a.Acquire? && Scheduled(b, s, a)
    ensures ReplayInv(c, b, Do(c, s, a))
  {
    var t := a.t;
    AcquireKeeps(c, s, a);
    TrackPhase(c, b, s.table, t, s.txs[t], Locked);
    TrackHolder(c, b, s, t, s.txs[t].(phase := Locked), Do(c, s, a));
  }

  /** The gate of an unsealed snapshot lets a checked transaction through. */
  lemma GateOpen(c: Config, s: State, t: nat)
    requires Enabled(s, Gate(t)) && !s.sealed && s.txs[t].kind.Checked()
    ensures var s' := Do(c, s, Gate(t));
            && t in s'.txs && s' == WithCtx(s, t, s'.txs[t])
            && s'.txs[t] == s.txs[t].(phase := s'.txs[t].phase)
            && (s'.txs[t].phase.Rechecking? || s'.txs[t].phase.Putting?)
  {
  }

  lemma GateTracks(c: Config, b: Block, s: State, a: Action)
    requires BlockOk(c, b) && ReplayInv(c, b, s) && a.Gate? && Scheduled(b, s, a)
    ensures ReplayInv(c, b, Do(c, s, a)) && a.t in Do(c, s, a).txs
  {
    var t := a.t;
    GateKeeps(c, s, a);
    assert OnTrack(c, b, s.table, t, s.txs[t]);
    GateOpen(c, s, a.t);
    TrackPhase(c, b, s.table, t, s.txs[t], Do(c, s, a).txs[t].phase);
    TrackLocal(c, b, s, t, Do(c, s, a).txs[t]);
  }

  lemma RecheckTracks(c: Config, b: Block, s: State, a: Action)
    requires BlockOk(c, b) && ReplayInv(c, b, s) && a.Recheck? && Scheduled(b, s, a)
    ensures ReplayInv(c, b, Do(c, s, a)) && a.t in Do(c, s, a).txs
  {
    var t, k := a.t, a.key;
    assert OnTrack(c, b, s.table, t, s.txs[t]) && RecordOk(c, s.txs[t]);
    RecheckKeeps(c, s, a);
    NeverConflicts(c, b, s, t, k);
    TrackPhase(c, b, s.table, t, s.txs[t], Do(c, s, a).txs[t].phase);
    TrackHolder(c, b, s, t, Do(c, s, a).txs[t], Do(c, s, a));
  }

  lemma RecheckDoneTracks(c: Config, b: Block, s: State, a: Action)
    requires BlockOk(c, b) && ReplayInv(c, b, s) && a.RecheckDone? && Scheduled(b, s, a)
    ensures ReplayInv(c, b, Do(c, s, a))
  {
    var t := a.t;
    RecheckDoneKeeps(c, s, a);
    TrackPhase(c, b, s.table, t, s.txs[t], Do(c, s, a).txs[t].phase);
    TrackHolder(c, b, s, t, Do(c, s, a).txs[t], Do(c, s, a));
  }

  lemma PutReadTracks(c: Config, b: Block, s: State, a: Action)
    requires BlockOk(c, b) && ReplayInv(c, b, s) && a.PutRead? && Scheduled(b, s, a)
    ensures ReplayInv(c, b, Do(c, s, a))
  {
    var t, k := a.t, a.key;
    ReplayTrusting(c, b, s);
    assert RecordOk(c, s.txs[t]);
    PutReadKeeps(c, s, a);
    TrackPhase(c, b, s.table, t, s.txs[t], Do(c, s, a).txs[t].phase);
    TrackHolder(c, b, s, t, Do(c, s, a).txs[t], Do(c, s, a));
  }

  lemma PutWriteTracks(c: Config, b: Block, s: State, a: Action)
    requires BlockOk(c, b) && ReplayInv(c, b, s) && a.PutWrite? && Scheduled(b, s, a)
    ensures ReplayInv(c, b, Do(c, s, a))
  {
    var t, k := a.t, a.key;
    PutWriteKeeps(c, s, a);
    TrackPhase(c, b, s.table, t, s.txs[t], Do(c, s, a).txs[t].phase);
    TrackHolder(c, b, s, t, Do(c, s, a).txs[t], Do(c, s, a));
  }

  /** Appending the row of `t` after everything it conflicts with. */
  lemma AppendedRespects(c: Config, b: Block, table: seq<Entry>, t: nat, x: Ctx)
    requires BlockOk(c, b) && Respects(b.txs, table) && GraphOrder(b, table)
    requires OnTrack(c, b, table, t, x) && !Ran(table, t)
    ensures Respects(b.txs, table + [Row(t, x)]) && GraphOrder(b, table + [Row(t, x)])
  {
    var table' := table + [Row(t, x)];
    forall p | 0 <= p < |table| ensures table'[..p] == table[..p] {}
    assert table'[..|table|] == table;
    forall j | Ran(table[..x.execSeq], j) ensures Ran(table, j) {
      RanBefore(table, x.execSeq, j);
    }
  }

  lemma AppendedTrack(c: Config, b: Block, table: seq<Entry>, u: nat, x: Ctx, e: Entry)
    requires OnTrack(c, b, table, u, x) && e.tx != u
    ensures OnTrack(c, b, table + [e], u, x)
  {
    assert (table + [e])[..x.execSeq] == table[..x.execSeq];
    if Ran(table, u) {
      var q :| 0 <= q < |table| && table[q].tx == u;
      assert (table + [e])[q].tx == u;
    }
  }

  lemma AppendedSelf(c: Config, b: Block, table: seq<Entry>, t: nat, x: Ctx)
    requires OnTrack(c, b, table, t, x) && x.phase.Finished()
    ensures OnTrack(c, b, table + [Row(t, x)], t, x.(phase := Stored))
  {
    var table' := table + [Row(t, x)];
    assert table'[..x.execSeq] == table[..x.execSeq];
    assert table'[|table|].tx == t;
  }

  /** The appended row is the block's row. */
  lemma AppendedSameRows(c: Config, b: Block, table: seq<Entry>, t: nat, x: Ctx)
    requires BlockOk(c, b) && SameRows(b.table, table) && OnTrack(c, b, table, t, x) && RecordOk(c, x) && x.phase.Finished()
    ensures SameRows(b.table, table + [Row(t, x)])
  {
    assert RanAlone(c, b.progs[t], b.table[..t], b.table[t]);
  }

  lemma AppendedOnTrack(c: Config, b: Block, s: State, t: nat, s': State)
    requires forall u :: u in s.txs ==> OnTrack(c, b, s.table, u, s.txs[u])
    requires t in s.txs && s.txs[t].phase.Finished()
    requires s'.txs == s.txs[t := s.txs[t].(phase := Stored)] && s'.table == s.table + [Row(t, s.txs[t])]
    ensures forall u :: u in s'.txs ==> OnTrack(c, b, s'.table, u, s'.txs[u])
  {
    forall u | u in s'.txs ensures OnTrack(c, b, s'.table, u, s'.txs[u]) {
      if u == t {
        AppendedSelf(c, b, s.table, t, s.txs[t]);
      } else {
        AppendedTrack(c, b, s.table, u, s.txs[u], Row(t, s.txs[t]));
      }
    }
  }

  lemma AppendedTracks(c: Config, b: Block, s: State, t: nat, s': State)
    requires BlockOk(c, b) && ReplayInv(c, b, s) && t in s.txs && s.txs[t].phase.Putting? && Inv(c, s') && !s'.sealed
    requires s'.txs == s.txs[t := s.txs[t].(phase := Stored)] && s'.table == s.table + [Row(t, s.txs[t])]
    ensures ReplayInv(c, b, s')
  {
    assert OnTrack(c, b, s.table, t, s.txs[t]) && RecordOk(c, s.txs[t]);
    AppendedRespects(c, b, s.table, t, s.txs[t]);
    AppendedSameRows(c, b, s.table, t, s.txs[t]);
    AppendedOnTrack(c, b, s, t, s');
  }

  lemma Appended(c: Config, s: State, a: Action)
    requires a.Append? && Enabled(s, a)
    ensures var x, s' := s.txs[a.t], Do(c, s, a);
            && x.phase.Putting? && s'.sealed == s.sealed
            && s'.txs == s.txs[a.t := x.(phase := Stored)] && s'.table == s.table + [Row(a.t, x)]
  {
  }

  lemma AppendTracks(c: Config, b: Block, s: State, a: Action)
    requires BlockOk(c, b) && ReplayInv(c, b, s) && a.Append? && Scheduled(b, s, a)
    ensures ReplayInv(c, b, Do(c, s, a))
  {
    AppendKeeps(c, s, a);
    Appended(c, s, a);
    AppendedTracks(c, b, s, a.t, Do(c, s, a));
  }

  lemma ReleaseTracks(c: Config, b: Block, s: State, a: Action)
    requires BlockOk(c, b) && ReplayInv(c, b, s) && a.Release? && Scheduled(b, s, a)
    ensures ReplayInv(c, b, Do(c, s, a)) && Ran(s.table, a.t)
  {
    var t := a.t;
    assert OnTrack(c, b, s.table, t, s.txs[t]);
    ReleaseKeeps(c, s, a);
  }
}
