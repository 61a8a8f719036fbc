/** Propose, build, replay.  Replays along the built graph give the proposer's outcome exactly when no writer is hidden; the
    converse is shown by two contracts that write one key. */
module ProposalReplay {
  import opened Basics
  import opened TxLog
  import opened OptimisticApply
  import opened OptimisticApplyProof
  import opened FailedRunReads
  import opened Replay
  import opened Closure
  import opened ConflictGraph
  import opened BuildDag
  import opened DagOrders
  import opened DagReplay
  import opened DagReplayTheorems
  import opened DagScheduler
  import opened BuiltGraph
  import opened Proposal

  type Key = TxLog.Key

  // --- contracts that put one value or nothing ---

  function Writer(k: Key, put: Option<Value>): Program {
    (log: seq<Event>) => if log == [] && put.Some? then Set(k, put.value) else Done(true)
  }

  /** What each transaction puts under the key. */
  type Puts = nat -> Option<Value>

  function Log(k: Key, put: Option<Value>): seq<Event> {
    if put.Some? then [Write(k, put.value)] else []
  }

  function Writes(k: Key, put: Option<Value>): map<Key, Value> {
    if put.Some? then map[k := put.value] else map[]
  }

  function RowOf(k: Key, t: nat, put: Option<Value>): Entry {
    Entry(t, Normal, true, Log(k, put), map[], Writes(k, put))
  }

  /** The snapshot after transaction `t` ran alone. */
  function Turned(k: Key, s: State, t: nat, put: Option<Value>): State {
    s.(writeTable := WrittenBy(k, s, put), table := s.table + [RowOf(k, t, put)])
  }

  function WrittenBy(k: Key, s: State, put: Option<Value>): map<Key, Cell> {
    if put.Some? then s.writeTable[k := Cell(|s.table|, put.value)] else s.writeTable
  }

  /** The context of transaction `t` from its last put on. */
  function PutCtx(k: Key, s: State, put: Option<Value>): Ctx {
    Ctx(Normal, |s.table|, Log(k, put), map[], map[], Writes(k, put), true, Writes(k, put), Running)
  }

  predicate Idle(s: State) {
    s.txs == map[] && s.lock.None? && !s.sealed
  }

  // --- a transaction runs alone ---

  ghost predicate Replayable(c: Config, b: Block, s: State) {
    exists acts :: ReplaysFrom(c, b, Init(), acts) && ReplayedTo(c, b, Init(), acts) == s
  }

  lemma {:induction false} OneMoreStep(c: Config, b: Block, s: State, acts: seq<Action>, a: Action)
    requires ReplaysFrom(c, b, s, acts) && Scheduled(b, ReplayedTo(c, b, s, acts), a)
    ensures ReplaysFrom(c, b, s, acts + [a]) && ReplayedTo(c, b, s, acts + [a]) == Do(c, ReplayedTo(c, b, s, acts), a)
    decreases |acts|
  {
    if acts == [] {
      assert [a][1..] == [];
    } else {
      OneMoreStep(c, b, Do(c, s, acts[0]), acts[1..], a);
      assert (acts + [a])[1..] == acts[1..] + [a];
    }
  }

  lemma Steps(c: Config, b: Block, s: State, a: Action, s': State)
    requires Replayable(c, b, s) && Scheduled(b, s, a) && Do(c, s, a) == s'
    ensures Replayable(c, b, s')
  {
    var acts :| ReplaysFrom(c, b, Init(), acts) && ReplayedTo(c, b, Init(), acts) == s;
    OneMoreStep(c, b, Init(), acts, a);
  }

  /** Transaction `t` of the block puts `put` under `k`. */
  ghost predicate IsWriter(b: Block, k: Key, t: nat, put: Option<Value>) {
    t < |b.progs| && t < |b.dag| && b.progs[t] == Writer(k, put)
  }

  function Started(s: State): Ctx {
    Ctx(Normal, |s.table|, [], map[], map[], map[], true, map[], Running)
  }

  lemma Starts(c: Config, b: Block, s: State, t: nat)
    requires Replayable(c, b, s) && Idle(s) && t < |b.progs| && t < |b.dag| && !Ran(s.table, t)
    requires forall d :: d in b.dag[t] ==> Ran(s.table, d)
    ensures Replayable(c, b, Alone(s, t, Started(s), Running))
  {
    assert s.txs[t := Started(s)] == map[t := Started(s)];
    Steps(c, b, s, Start(t, Normal), Alone(s, t, Started(s), Running));
  }

  lemma PutsOne(c: Config, b: Block, k: Key, s: State, t: nat, put: Option<Value>)
    requires Replayable(c, b, Alone(s, t, Started(s), Running)) && IsWriter(b, k, t, put) && put.Some?
    ensures Replayable(c, b, Alone(s, t, PutCtx(k, s, put).(writes := map[]), Running))
  {
    var x, y := Started(s), PutCtx(k, s, put).(writes := map[]);
    assert [] + [Write(k, put.value)] == Log(k, put);
    assert map[t := x][t := y] == map[t := y];
    Steps(c, b, Alone(s, t, x, Running), Put(t, k, put.value), Alone(s, t, y, Running));
  }

  lemma Finishes(c: Config, b: Block, k: Key, s: State, t: nat, put: Option<Value>)
    requires Replayable(c, b, Alone(s, t, PutCtx(k, s, put).(writes := map[]), Running)) && IsWriter(b, k, t, put) && !s.sealed
    ensures Replayable(c, b, Alone(s, t, PutCtx(k, s, put), PreChecking({})))
  {
    var x, y := PutCtx(k, s, put).(writes := map[]), PutCtx(k, s, put).(phase := PreChecking({}));
    assert map[t := x][t := y] == map[t := y];
    assert x.readSet.Keys == {};
    Steps(c, b, Alone(s, t, x, Running), Finish(t, true), Alone(s, t, y, PreChecking({})));
  }

  lemma Runs(c: Config, b: Block, k: Key, s: State, t: nat, put: Option<Value>)
    requires Replayable(c, b, Alone(s, t, Started(s), Running)) && IsWriter(b, k, t, put) && !s.sealed
    ensures Replayable(c, b, Alone(s, t, PutCtx(k, s, put), PreChecking({})))
  {
    if put.Some? {
      PutsOne(c, b, k, s, t, put);
    }
    Finishes(c, b, k, s, t, put);
  }

  /** To the lock, */
  lemma Waits(c: Config, b: Block, s: State, t: nat, x: Ctx)
    requires Replayable(c, b, Alone(s, t, x, PreChecking({}))) && t < |b.progs| && t < |b.dag|
    ensures Replayable(c, b, Alone(s, t, x, Waiting))
  {
    AloneReplaced(s, t, x, PreChecking({}), Waiting);
    Steps(c, b, Alone(s, t, x, PreChecking({})), PreCheckDone(t), Alone(s, t, x, Waiting));
  }

  lemma Locks(c: Config, b: Block, s: State, t: nat, x: Ctx)
    requires Replayable(c, b, Alone(s, t, x, Waiting)) && t < |b.progs| && t < |b.dag|
    ensures Replayable(c, b, Alone(s, t, x, Locked))
  {
    assert WithCtx(Alone(s, t, x, Waiting), t, x.(phase := Locked)).txs == map[t := x.(phase := Locked)];
    Steps(c, b, Alone(s, t, x, Waiting), Acquire(t), Alone(s, t, x, Locked));
  }

  /** through the gate, */
  lemma Passes(c: Config, b: Block, k: Key, s: State, t: nat, put: Option<Value>)
    requires Replayable(c, b, Alone(s, t, PutCtx(k, s, put), Locked)) && t < |b.progs| && t < |b.dag| && !s.sealed
    ensures Replayable(c, b, Alone(s, t, PutCtx(k, s, put), Putting({}, Writes(k, put).Keys)))
  {
    var x, p := PutCtx(k, s, put), Putting({}, Writes(k, put).Keys);
    AloneReplaced(s, t, x, Locked, p);
    assert CachedReads(c, x) == {};
    assert StartPutting(c, x.(phase := Locked)) == x.(phase := p);
    Steps(c, b, Alone(s, t, x, Locked), Gate(t), Alone(s, t, x, p));
  }

  /** into the write table, */
  lemma PutsWrite(c: Config, b: Block, k: Key, s: State, t: nat, put: Option<Value>)
    requires Replayable(c, b, Alone(s, t, PutCtx(k, s, put), Putting({}, Writes(k, put).Keys))) && t < |b.progs| && t < |b.dag|
    ensures Replayable(c, b, Alone(s.(writeTable := WrittenBy(k, s, put)), t, PutCtx(k, s, put), Putting({}, {})))
  {
    if put.Some? {
      var x, p := PutCtx(k, s, put), Putting({}, Writes(k, put).Keys);
      var s' := s.(writeTable := WrittenBy(k, s, put));
      assert Writes(k, put).Keys == {k} && {k} - {k} == {};
      AloneReplaced(s, t, x, p, Putting({}, {}));
      Steps(c, b, Alone(s, t, x, p), PutWrite(t, k), Alone(s', t, x, Putting({}, {})));
    } else {
      assert Writes(k, put).Keys == {};
    }
  }

  /** into the table, */
  lemma Appends(c: Config, b: Block, s: State, t: nat, x: Ctx)
    requires Replayable(c, b, Alone(s, t, x, Putting({}, {}))) && t < |b.progs| && t < |b.dag|
    ensures Replayable(c, b, Alone(s.(table := s.table + [Row(t, x)]), t, x, Stored))
  {
    AloneReplaced(s, t, x, Putting({}, {}), Stored);
    Steps(c, b, Alone(s, t, x, Putting({}, {})), Append(t), Alone(s.(table := s.table + [Row(t, x)]), t, x, Stored));
  }

  /** and out. */
  lemma Leaves(c: Config, b: Block, s: State, t: nat, x: Ctx)
    requires Replayable(c, b, Alone(s, t, x, Stored)) && t < |b.progs| && t < |b.dag| && Idle(s)
    ensures Replayable(c, b, s)
  {
    assert map[t := x.(phase := Stored)] - {t} == map[];
    Steps(c, b, Alone(s, t, x, Stored), Release(t), s);
  }

  lemma Turn(c: Config, b: Block, k: Key, s: State, t: nat, put: Option<Value>)
    requires Replayable(c, b, s) && Idle(s) && IsWriter(b, k, t, put) && !Ran(s.table, t)
    requires forall d :: d in b.dag[t] ==> Ran(s.table, d)
    ensures Replayable(c, b, Turned(k, s, t, put))
  {
    var x := PutCtx(k, s, put);
    Starts(c, b, s, t);
    Runs(c, b, k, s, t, put);
    Waits(c, b, s, t, x);
    Locks(c, b, s, t, x);
    Passes(c, b, k, s, t, put);
    PutsWrite(c, b, k, s, t, put);
    Appends(c, b, s.(writeTable := WrittenBy(k, s, put)), t, x);
    assert Row(t, x) == RowOf(k, t, put);
    Leaves(c, b, Turned(k, s, t, put), t, x);
  }

  // --- all transactions, one after the other ---

  function Serial(k: Key, puts: Puts, order: seq<nat>): State {
    if order == [] then Init() else Turned(k, Serial(k, puts, Front(order)), Last(order), puts(Last(order)))
  }

  lemma {:induction false} SerialRows(k: Key, puts: Puts, order: seq<nat>)
    ensures var s := Serial(k, puts, order);
            && Idle(s) && s.readTable == map[] && |s.table| == |order|
            && forall p :: 0 <= p < |order| ==> s.table[p] == RowOf(k, order[p], puts(order[p]))
    decreases |order|
  {
    if order == [] {
    } else {
      SerialRows(k, puts, Front(order));
    }
  }

  lemma SerialRan(k: Key, puts: Puts, order: seq<nat>, t: nat)
    ensures Ran(Serial(k, puts, order).table, t) <==> t in order
  {
    SerialRows(k, puts, order);
    var table := Serial(k, puts, order).table;
    if t in order {
      var p :| 0 <= p < |order| && order[p] == t;
      assert table[p].tx == t;
    }
  }

  /** Every order the graph allows is a replay. */
  lemma {:induction false} SerialReplay(c: Config, b: Block, k: Key, puts: Puts, order: seq<nat>, n: nat)
    requires Allowed(b.dag, order) && |b.progs| == |b.dag| && n <= |order|
    requires forall t :: 0 <= t < |b.progs| ==> b.progs[t] == Writer(k, puts(t))
    ensures Replayable(c, b, Serial(k, puts, order[..n]))
    decreases n
  {
    if n == 0 {
      assert ReplaysFrom(c, b, Init(), []) && ReplayedTo(c, b, Init(), []) == Init();
    } else {
      var front, t := order[..n - 1], order[n - 1];
      SerialReplay(c, b, k, puts, order, n - 1);
      SerialRows(k, puts, front);
      SerialRan(k, puts, front, t);
      forall d | d in b.dag[t] ensures Ran(Serial(k, puts, front).table, d) {
        SerialRan(k, puts, front, d);
      }
      Turn(c, b, k, Serial(k, puts, front), t, puts(t));
      assert Front(order[..n]) == front && Last(order[..n]) == t;
    }
  }

  /** The last put stays. */
  lemma {:induction false} LastPutStays(c: Config, k: Key, puts: Puts, order: seq<nat>, q: nat)
    requires q < |order| && puts(order[q]).Some? && forall p :: q < p < |order| ==> puts(order[p]).None?
    ensures GetKey(c, Serial(k, puts, order), k) == puts(order[q]).value
    decreases |order|
  {
    if q == |order| - 1 {
    } else {
      LastPutStays(c, k, puts, Front(order), q);
    }
  }

  // --- the proposer ---

  /** A block without edges: its replays are the runs of a proposer. */
  function Unordered(k: Key, puts: Puts, n: nat): (b: Block)
    ensures |b.progs| == |b.dag| == n
    ensures forall t :: 0 <= t < n ==> b.progs[t] == Writer(k, puts(t)) && b.dag[t] == {}
  {
    Block(WriterCalls(k, puts, n), (x: Key) => x, [], [], seq(n, _ => {}))
  }

  function WriterCalls(k: Key, puts: Puts, n: nat): (progs: seq<Program>)
    ensures |progs| == n && forall t :: 0 <= t < n ==> progs[t] == Writer(k, puts(t))
  {
    if n == 0 then [] else WriterCalls(k, puts, n - 1) + [Writer(k, puts(n - 1))]
  }

  function Progs(k: Key, puts: Puts): Programs {
    (t: nat) => Writer(k, puts(t))
  }

  lemma {:induction false} ReplayObeys(c: Config, k: Key, puts: Puts, b: Block, s: State, acts: seq<Action>)
    requires ReplaysFrom(c, b, s, acts) && forall t :: 0 <= t < |b.progs| ==> b.progs[t] == Writer(k, puts(t))
    ensures ObeysFrom(c, Progs(k, puts), s, acts) && RunsFrom(c, s, acts)
    ensures After(c, s, acts) == ReplayedTo(c, b, s, acts) && NoFailure(acts)
    decreases |acts|
  {
    if acts == [] {
    } else {
      ReplayObeys(c, k, puts, b, Do(c, s, acts[0]), acts[1..]);
    }
  }

  function UpTo(n: nat): (order: seq<nat>)
    ensures |order| == n && forall p :: 0 <= p < n ==> order[p] == p
  {
    seq(n, p => p)
  }

  lemma UpToAllowed(g: Graph, n: nat)
    requires |g| == n && forall t :: 0 <= t < n ==> g[t] == {}
    ensures Allowed(g, UpTo(n))
  {
    forall x | 0 <= x < n ensures x in UpTo(n) {
      assert UpTo(n)[x] == x;
    }
  }

  lemma Proposes(c: Config, k: Key, puts: Puts, n: nat) returns (acts: seq<Action>)
    ensures ProposedBy(c, Progs(k, puts), acts, Serial(k, puts, UpTo(n)))
  {
    var b := Unordered(k, puts, n);
    UpToAllowed(b.dag, n);
    SerialReplay(c, b, k, puts, UpTo(n), n);
    assert UpTo(n)[..n] == UpTo(n);
    acts :| ReplaysFrom(c, b, Init(), acts) && ReplayedTo(c, b, Init(), acts) == Serial(k, puts, UpTo(n));
    ReplayObeys(c, k, puts, b, Init(), acts);
  }

  // --- a hidden writer ---

  /** Only `j` and `i` put anything. */
  function Two(i: nat, j: nat): Puts {
    (t: nat) => if t == i then Some("new") else if t == j then Some("old") else None
  }

  function Same(): TxLog.Key -> ConflictGraph.Key {
    (k: TxLog.Key) => k
  }

  lemma TwoListed(txs: seq<RwKeys>, k: Key, i: nat, j: nat)
    requires i < |txs| && j < |txs| && k in txs[i].writeKeys && k in txs[j].writeKeys
    ensures Lists(Same(), Serial(k, Two(i, j), UpTo(|txs|)).table, txs)
  {
    SerialRows(k, Two(i, j), UpTo(|txs|));
  }

  lemma TwoNew(c: Config, k: Key, i: nat, j: nat, n: nat)
    requires j < i < n
    ensures GetKey(c, Serial(k, Two(i, j), UpTo(n)), k) == "new"
  {
    LastPutStays(c, k, Two(i, j), UpTo(n), i);
  }

  lemma TwoOld(c: Config, k: Key, i: nat, j: nat, order: seq<nat>, p: nat, q: nat)
    requires Distinct(order) && p < q < |order| && order[p] == i && order[q] == j
    ensures GetKey(c, Serial(k, Two(i, j), order), k) == "old"
  {
    LastPutStays(c, k, Two(i, j), order, q);
  }

  lemma TwoDiffer(c: Config, k: Key, i: nat, j: nat, n: nat, b: Block, order: seq<nat>, p: nat, q: nat, replay: seq<Action>)
    requires j < i < n && Distinct(order) && p < q < |order| && order[p] == i && order[q] == j
    requires forall x :: 0 <= x < n ==> x in order
    requires ReplaysFrom(c, b, Init(), replay) && ReplayedTo(c, b, Init(), replay) == Serial(k, Two(i, j), order)
    ensures !SameOutcome(c, Serial(k, Two(i, j), UpTo(n)), b, replay)
  {
    var s := Serial(k, Two(i, j), UpTo(n));
    SerialRows(k, Two(i, j), UpTo(n));
    forall x | 0 <= x < |s.table| ensures Ran(Serial(k, Two(i, j), order).table, x) {
      SerialRan(k, Two(i, j), order, x);
    }
    TwoNew(c, k, i, j, n);
    TwoOld(c, k, i, j, order, p, q);
    assert k !in Pending(s);
  }

  /** The block of those two contracts, and a replay of it that runs the hidden writer last. */
  lemma TwoReplayed(c: Config, txs: seq<RwKeys>, dag: seq<seq<nat>>, k: Key, i: nat, j: nat) returns (replay: seq<Action>)
    requires |dag| == |txs| && Down(Edges(dag)) && j < i < |txs| && j !in Reach(Edges(dag), i)
    ensures var s := Serial(k, Two(i, j), UpTo(|txs|));
            var b := Proposed(Progs(k, Two(i, j)), Same(), s.table, txs, dag);
            ReplaysFrom(c, b, Init(), replay) && !SameOutcome(c, s, b, replay)
  {
    var puts, n := Two(i, j), |txs|;
    var s := Serial(k, puts, UpTo(n));
    var b, order := Proposed(Progs(k, puts), Same(), s.table, txs, dag), Hasty(Edges(dag), i);
    SerialRows(k, puts, UpTo(n));
    HastyAllowed(Edges(dag), i);
    HastyBreaks(Edges(dag), i, j);
    var p, q :| 0 <= p < q < |order| && order[p] == i && order[q] == j;
    SerialReplay(c, b, k, puts, order, |order|);
    assert order[..|order|] == order;
    replay :| ReplaysFrom(c, b, Init(), replay) && ReplayedTo(c, b, Init(), replay) == Serial(k, puts, order);
    TwoDiffer(c, k, i, j, n, b, order, p, q, replay);
  }

  /** Every proposal with these key lists replays along the graph to the proposer's rows and state. */
  ghost predicate AllReplay(c: Config, txs: seq<RwKeys>, dag: seq<seq<nat>>) {
    forall progs, bare, acts, s :: ProposedBy(c, progs, acts, s) && Lists(bare, s.table, txs) ==>
      Replays(c, s, Proposed(progs, bare, s.table, txs, dag))
  }

  lemma HiddenLosesUpdate(c: Config, txs: seq<RwKeys>, dag: seq<seq<nat>>)
    requires |dag| == |txs| && Down(Edges(dag)) && !HiddenCovered(txs)
    requires forall i :: 0 <= i < |txs| ==> Reach(Edges(dag), i) == Reach(SeenGraph(txs), i)
    ensures !AllReplay(c, txs, dag)
  {
    var i, k, j :| 0 <= i < |txs| && Hidden(txs, i, k) && IsPrevWriter(txs, i, k, j) && j !in Reach(SeenGraph(txs), i);
    CountIn(txs[i].writeKeys, k);
    var s := Serial(k, Two(i, j), UpTo(|txs|));
    var acts := Proposes(c, k, Two(i, j), |txs|);
    TwoListed(txs, k, i, j);
    var replay := TwoReplayed(c, txs, dag, k, i, j);
    assert !Replays(c, s, Proposed(Progs(k, Two(i, j)), Same(), s.table, txs, dag));
  }

  /** Propose, build, replay: the graph that BuildDAG makes from the key lists of a block is accepted, and every replay of
      every proposal with these key lists gives the proposer's rows and state if and only if every writer hidden by a repeated
      write of a bare key is reached some other way. */
  method ProposeBuildReplay(ghost c: Config, txs: seq<RwKeys>) returns (dag: seq<seq<nat>>)
    ensures |dag| == |txs| && Accepted(dag)
    ensures AllReplay(c, txs, dag) <==> HiddenCovered(txs)
  {
    dag := BuildForReplay(txs);
    if HiddenCovered(txs) {
      forall progs, bare, acts, s | ProposedBy(c, progs, acts, s) && Lists(bare, s.table, txs)
        ensures Replays(c, s, Proposed(progs, bare, s.table, txs, dag))
      {
        CoveredReplays(c, progs, acts, s, bare, txs, dag);
      }
    } else {
      HiddenLosesUpdate(c, txs, dag);
    }
  }
}
