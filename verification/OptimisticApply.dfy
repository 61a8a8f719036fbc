/** The block snapshot while transactions run concurrently: contexts are created, read through GetKey, and are
    accepted or rejected by ApplyTxSimContext.  Every step below is one atomic action of the code: one table
    lookup, one table put, one lock operation or one append. */
module OptimisticApply {
  import opened Basics
  import opened TxLog

  /** From this block version a failed run keeps its account-manager writes. */
  const FAILED_RUNS_PAY_GAS := 2300
  /** Below this block version a read answered by the transaction's own put is recorded as a read. */
  const OWN_PUTS_NOT_RECORDED := 2030500

  /** `base` is what the previous snapshots and the store answer. */
  datatype Config = Config(base: Key -> Value, version: nat, accountKeys: set<Key>)

  datatype Phase =
    | Running
    | MissedWriteTable(key: Key)
    | MissedReadTable(key: Key)
    | Batch(missed: set<Key>, below: set<Key>)
    | PreChecking(todo: set<Key>)
    | Waiting
    | Locked
    | Deferring
    | Rechecking(todo: set<Key>)
    | Putting(readsTodo: set<Key>, writesTodo: set<Key>)
    | Stored
  {
    predicate HoldsLock() { Locked? || Deferring? || Rechecking? || Putting? || Stored? }

    /** The run is over and its read-write set is fixed. */
    predicate Finished() { !Running? && !MissedWriteTable? && !MissedReadTable? && !Batch? }
  }

  /** A simulation context.  `seen` holds what GetKey returned, `readSet` what was recorded. */
  datatype Ctx = Ctx(kind: Kind, execSeq: nat, log: seq<Event>, seen: map<Key, Value>, readSet: map<Key, Value>,
                     writeSet: map<Key, Value>, success: bool, writes: map<Key, Value>, phase: Phase)

  datatype State = State(txs: map<nat, Ctx>, lock: Option<nat>, sealed: bool,
                         readTable: map<Key, Cell>, writeTable: map<Key, Cell>,
                         table: seq<Entry>, special: seq<nat>)

  /** One step of a batch read: a key is looked up in the write table, in the read table, or below; or the batch returns. */
  datatype BatchStep = Ask(key: Key) | AskCache(key: Key) | AskBelow(key: Key) | Return

  datatype Action =
    | Start(t: nat, kind: Kind)
    | ReadOwn(t: nat, key: Key)
    | ReadRecorded(t: nat, key: Key)
    | ProbeWriteTable(t: nat, key: Key)
    | ProbeReadTable(t: nat)
    | ReadBase(t: nat)
    | BatchGet(t: nat, step: BatchStep)
    | Put(t: nat, key: Key, value: Value)
    | Finish(t: nat, success: bool)
    | PreCheck(t: nat, key: Key)
    | PreCheckDone(t: nat)
    | Acquire(t: nat)
    | Gate(t: nat)
    | AppendSpecial(t: nat)
    | Recheck(t: nat, key: Key)
    | RecheckDone(t: nat)
    | PutRead(t: nat, key: Key)
    | PutWrite(t: nat, key: Key)
    | Append(t: nat)
    | Release(t: nat)
    | Seal

  function Init(): State {
    State(map[], None, false, map[], map[], [], [])
  }

  /** The writes of a run that reach the snapshot: all of them, or those that pay for a failed run. */
  function KeptWrites(c: Config, success: bool, ws: map<Key, Value>): map<Key, Value> {
    if success then ws
    else if c.version < FAILED_RUNS_PAY_GAS then map[]
    else map k | k in ws && k in c.accountKeys :: ws[k]
  }

  /** The keys whose reads are put into the read table. */
  function CachedReads(c: Config, x: Ctx): set<Key> {
    if c.version < READS_OF_FAILED_RUNS_DROPPED || x.success then x.readSet.Keys else {}
  }

  predicate Conflicts(s: State, x: Ctx, k: Key) {
    k in s.writeTable && s.writeTable[k].index >= x.execSeq
  }

  function WithCtx(s: State, t: nat, x: Ctx): State {
    s.(txs := s.txs[t := x])
  }

  function Without(s: State, t: nat): State {
    s.(txs := s.txs - {t})
  }

  /** GetKey returned `v`: the value goes to the contract and into the read set. */
  function Observe(x: Ctx, k: Key, v: Value): Ctx {
    x.(log := x.log + [Read(k, v)], seen := x.seen[k := v], readSet := x.readSet[k := v], phase := Running)
  }

  /** In a batch `missed` has the keys not found in the write table, and `below` those not found in the read table
      either. */
  predicate CanBatch(x: Ctx, step: BatchStep) {
    match step
    case Ask(k) =>
      && (x.phase.Running? || (x.phase.Batch? && k !in x.phase.missed && k !in x.phase.below))
      && k !in x.writeSet && k !in x.readSet
    case AskCache(k) => x.phase.Batch? && k in x.phase.missed
    case AskBelow(k) => x.phase.Batch? && k in x.phase.below
    case Return => x.phase.Batch? && x.phase.missed == {} && x.phase.below == {}
  }

  function Missed(x: Ctx): set<Key> {
    if x.phase.Batch? then x.phase.missed else {}
  }

  function Sought(x: Ctx): set<Key> {
    if x.phase.Batch? then x.phase.below else {}
  }

  /** The context after a step of a batch read.  The lookups of its keys interleave freely. */
  function AfterBatch(c: Config, s: State, x: Ctx, step: BatchStep): Ctx
    requires CanBatch(x, step)
  {
    match step
    case Ask(k) =>
      if k in s.writeTable then Observe(x, k, s.writeTable[k].value).(phase := Batch(Missed(x), Sought(x)))
      else x.(phase := Batch(Missed(x) + {k}, Sought(x)))
    case AskCache(k) =>
      if k in s.readTable then Observe(x, k, s.readTable[k].value).(phase := Batch(Missed(x) - {k}, Sought(x) - {k}))
      else x.(phase := Batch(Missed(x) - {k}, Sought(x) + {k}))
    case AskBelow(k) => Observe(x, k, c.base(k)).(phase := Batch(Missed(x) - {k}, Sought(x) - {k}))
    case Return => x.(phase := Running)
  }

  /** The row a context appends. */
  function Row(t: nat, x: Ctx): Entry {
    Entry(t, x.kind, x.success, x.log, x.readSet, x.writes)
  }

  function StartPutting(c: Config, x: Ctx): Ctx {
    x.(phase := Putting(CachedReads(c, x), x.writes.Keys))
  }

  /** Which actions can happen in `s`. */
  predicate Enabled(s: State, a: Action) {
    if a.Seal? then true
    else if a.Start? then a.t !in s.txs
    else if a.t !in s.txs then false
    else
      var x := s.txs[a.t];
      match a
      case Start(_, _) => false
      case Seal => true
      case ReadOwn(_, k) => x.phase.Running? && k in x.writeSet
      case ReadRecorded(_, k) => x.phase.Running? && k !in x.writeSet && k in x.readSet
      case ProbeWriteTable(_, k) => x.phase.Running? && k !in x.writeSet && k !in x.readSet
      case ProbeReadTable(_) => x.phase.MissedWriteTable?
      case ReadBase(_) => x.phase.MissedReadTable?
      case BatchGet(_, step) => CanBatch(x, step)
      case Put(_, _, _) => x.phase.Running?
      case Finish(_, _) => x.phase.Running?
      case PreCheck(_, k) => x.phase.PreChecking? && k in x.phase.todo
      case PreCheckDone(_) => x.phase.PreChecking? && x.phase.todo == {}
      case Acquire(_) => x.phase.Waiting? && s.lock.None?
      case Gate(_) => x.phase.Locked?
      case AppendSpecial(_) => x.phase.Deferring?
      case Recheck(_, k) => x.phase.Rechecking? && k in x.phase.todo
      case RecheckDone(_) => x.phase.Rechecking? && x.phase.todo == {}
      case PutRead(_, k) => x.phase.Putting? && k in x.phase.readsTodo && k in x.readSet
      case PutWrite(_, k) => x.phase.Putting? && k in x.phase.writesTodo && k in x.writes
      case Append(_) => x.phase.Putting? && x.phase.readsTodo == {} && x.phase.writesTodo == {}
      case Release(_) => x.phase.Stored?
  }

  /** The state after an enabled action. */
  function Do(c: Config, s: State, a: Action): State
    requires Enabled(s, a)
  {
    if a.Seal? then s.(sealed := true)
    else if a.Start? then
      WithCtx(s, a.t, Ctx(a.kind, |s.table|, [], map[], map[], map[], true, map[], Running))
    else
      var x := s.txs[a.t];
      match a
      case Start(_, _) => s
      case Seal => s
      case ReadOwn(t, k) =>
        var recorded := if c.version < OWN_PUTS_NOT_RECORDED then x.readSet[k := x.writeSet[k]] else x.readSet;
        WithCtx(s, t, x.(log := x.log + [Read(k, x.writeSet[k])], readSet := recorded))
      case ReadRecorded(t, k) => WithCtx(s, t, x.(log := x.log + [Read(k, x.readSet[k])]))
      case ProbeWriteTable(t, k) =>
        WithCtx(s, t, if k in s.writeTable then Observe(x, k, s.writeTable[k].value)
                      else x.(phase := MissedWriteTable(k)))
      case ProbeReadTable(t) =>
        var k := x.phase.key;
        WithCtx(s, t, if k in s.readTable then Observe(x, k, s.readTable[k].value)
                      else x.(phase := MissedReadTable(k)))
      case ReadBase(t) => WithCtx(s, t, Observe(x, x.phase.key, c.base(x.phase.key)))
      case BatchGet(t, step) => WithCtx(s, t, AfterBatch(c, s, x, step))
      case Put(t, k, v) => WithCtx(s, t, x.(log := x.log + [Write(k, v)], writeSet := x.writeSet[k := v]))
      case Finish(t, success) =>
        if x.kind.Normal? && s.sealed then Without(s, t)
        else WithCtx(s, t, x.(success := success, writes := KeptWrites(c, success, x.writeSet),
                              phase := if x.kind.Normal? then PreChecking(x.readSet.Keys) else Waiting))
      case PreCheck(t, k) =>
        if Conflicts(s, x, k) then Without(s, t)
        else WithCtx(s, t, x.(phase := PreChecking(x.phase.todo - {k})))
      case PreCheckDone(t) => WithCtx(s, t, x.(phase := Waiting))
      case Acquire(t) => WithCtx(s, t, x.(phase := Locked)).(lock := Some(t))
      case Gate(t) =>
        if x.kind.Gated() && s.sealed then Without(s, t).(lock := None)
        else WithCtx(s, t, if x.kind.Deferred? then x.(phase := Deferring)
                           else if x.kind.Checked() && x.execSeq < |s.table| then x.(phase := Rechecking(x.readSet.Keys))
                           else StartPutting(c, x))
      case AppendSpecial(t) =>
        Without(s, t).(lock := None, special := s.special + [t])
      case Recheck(t, k) =>
        if Conflicts(s, x, k) then Without(s, t).(lock := None)
        else WithCtx(s, t, x.(phase := Rechecking(x.phase.todo - {k})))
      case RecheckDone(t) => WithCtx(s, t, StartPutting(c, x))
      case PutRead(t, k) =>
        WithCtx(s, t, x.(phase := x.phase.(readsTodo := x.phase.readsTodo - {k})))
          .(readTable := s.readTable[k := Cell(|s.table|, x.readSet[k])])
      case PutWrite(t, k) =>
        WithCtx(s, t, x.(phase := x.phase.(writesTodo := x.phase.writesTodo - {k})))
          .(writeTable := s.writeTable[k := Cell(|s.table|, x.writes[k])])
      case Append(t) =>
        WithCtx(s, t, x.(phase := Stored))
          .(table := s.table + [Row(t, x)])
      case Release(t) => Without(s, t).(lock := None)
  }

  /** `acts` can happen one after the other from `s`. */
  predicate RunsFrom(c: Config, s: State, acts: seq<Action>)
    decreases |acts|
  {
    acts != [] ==> Enabled(s, acts[0]) && RunsFrom(c, Do(c, s, acts[0]), acts[1..])
  }

  /** The state `acts` lead to. */
  function After(c: Config, s: State, acts: seq<Action>): State
    requires RunsFrom(c, s, acts)
    decreases |acts|
  {
    if acts == [] then s else After(c, Do(c, s, acts[0]), acts[1..])
  }

  /** No run in `acts` fails. */
  predicate NoFailure(acts: seq<Action>) {
    forall i :: 0 <= i < |acts| && acts[i].Finish? ==> acts[i].success
  }

  /** Every checked row of `table` ran as if alone after the rows before it, and wrote what that run says. */
  predicate Serializable(c: Config, table: seq<Entry>) {
    forall i :: 0 <= i < |table| && (table[i].kind.Normal? || table[i].kind.SZ?) ==>
      && SerialLog(c.base, table[..i], table[i].log)
      && table[i].writes == KeptWrites(c, table[i].success, LastWrites(table[i].log))
  }

  /** What GetKey answers when it is not interrupted. */
  function GetKey(c: Config, s: State, k: Key): Value {
    if k in s.writeTable then s.writeTable[k].value
    else if k in s.readTable then s.readTable[k].value
    else c.base(k)
  }
}
