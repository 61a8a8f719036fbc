/** ApplyWritesToWriteTable: a list of writes put by eight workers at once. */
module WriteBatches {
  import opened Basics
  import opened SnapshotForest
  import opened SnapshotTables

  const CONCURRENT_THRESHOLD := 50
  const NUM_WORKERS := 8

  // --- the slices ---

  datatype Slice = Slice(start: nat, end: nat)

  /** The slices follow each other from 0 to `n`, none of them empty. */
  predicate Tiles(slices: seq<Slice>, n: nat) {
    if slices == [] then n == 0
    else
      var last := slices[|slices| - 1];
      last.start < last.end == n && Tiles(slices[..|slices| - 1], last.start)
  }

  /** `i * size` */
  function At(i: nat, size: nat): nat {
    if i == 0 then 0 else At(i - 1, size) + size
  }

  lemma {:induction false} AtIs(i: nat, size: nat)
    ensures At(i, size) == i * size
    decreases i
  {
    if i == 0 {
    } else {
      AtIs(i - 1, size);
    }
  }

  function Min(a: nat, b: nat): nat {
    if a > b then b else a
  }

  /** Slice `w` of `size` indices, cut off at `n`. */
  function SliceAt(n: nat, size: nat, w: nat): Slice {
    Slice(At(w, size), Min(At(w, size) + size, n))
  }

  function SliceSize(n: nat): nat {
    (n + 7) / 8
  }

  /** The slices are the first ones of ceil(n / 8) indices: all that start before `n`, but no more than eight. */
  ghost predicate FirstSlices(n: nat, size: nat, slices: seq<Slice>) {
    && |slices| <= 8
    && (forall w :: 0 <= w < |slices| ==> At(w, size) < n && slices[w] == SliceAt(n, size, w))
  }

  ghost predicate IsPlan(n: nat, slices: seq<Slice>) {
    && FirstSlices(n, SliceSize(n), slices)
    && (|slices| == 8 || At(|slices|, SliceSize(n)) >= n)
  }

  lemma EnoughWorkers(n: nat)
    ensures At(NUM_WORKERS, SliceSize(n)) >= n && (n > 0 ==> SliceSize(n) > 0)
  {
    AtIs(NUM_WORKERS, SliceSize(n));
  }

  /** One more slice. */
  lemma TilesStep(slices: seq<Slice>, last: Slice)
    requires Tiles(slices, last.start) && last.start < last.end
    ensures Tiles(slices + [last], last.end)
  {
    assert (slices + [last])[..|slices|] == slices;
  }

  lemma FirstSlicesStep(slices: seq<Slice>, n: nat, size: nat)
    requires |slices| < NUM_WORKERS && At(|slices|, size) < n && FirstSlices(n, size, slices)
    ensures FirstSlices(n, size, slices + [SliceAt(n, size, |slices|)])
  {
  }

  method StartOf(i: nat, size: nat) returns (start: nat)
    ensures start == At(i, size)
  {
    AtIs(i, size);
    start := i * size;
  }

  /** The slices the workers get: at most eight, one after the other from 0 to `n`. */
  method Plan(n: nat) returns (slices: seq<Slice>)
    ensures IsPlan(n, slices) && Tiles(slices, n) && |slices| <= 8
  {
    var size := (n + NUM_WORKERS - 1) / NUM_WORKERS;
    slices := [];
    var i := 0;
    EnoughWorkers(n);
    while i < NUM_WORKERS
      invariant 0 <= i <= NUM_WORKERS && |slices| == i
      invariant Tiles(slices, Min(At(i, size), n)) && FirstSlices(n, size, slices)
    {
      var start := StartOf(i, size);
      var end := start + size;
      if end > n {
        end := n;
      }
      if start >= n {
        break;
      }
      TilesStep(slices, Slice(start, end));
      FirstSlicesStep(slices, n, size);
      slices := slices + [Slice(start, end)];
      i := i + 1;
    }
  }

  lemma {:induction false} SliceInside(slices: seq<Slice>, n: nat, w: nat)
    requires Tiles(slices, n) && w < |slices|
    ensures slices[w].start < slices[w].end <= n
    decreases |slices|
  {
    if w == |slices| - 1 {
    } else {
      SliceInside(slices[..|slices| - 1], slices[|slices| - 1].start, w);
    }
  }

  /** Every index lies in exactly one slice. */
  lemma {:induction false} CoveredOnce(slices: seq<Slice>, n: nat, p: nat) returns (w: nat)
    requires Tiles(slices, n) && p < n
    ensures w < |slices| && slices[w].start <= p < slices[w].end
    ensures forall v :: 0 <= v < |slices| && slices[v].start <= p < slices[v].end ==> v == w
    decreases |slices|
  {
    var m := |slices| - 1;
    forall v | 0 <= v < m ensures slices[v].end <= slices[m].start {
      SliceInside(slices[..m], slices[m].start, v);
    }
    if slices[m].start <= p {
      w := m;
    } else {
      w := CoveredOnce(slices[..m], slices[m].start, p);
      assert forall v :: 0 <= v < m ==> slices[..m][v] == slices[v];
    }
  }

  /** The part of the list that each slice covers. */
  function Batches(writes: seq<Access>, slices: seq<Slice>): seq<seq<Access>> {
    seq(|slices|, w requires 0 <= w < |slices| =>
      if slices[w].start <= slices[w].end <= |writes| then writes[slices[w].start..slices[w].end] else [])
  }

  // --- interleavings ---

  /** How often worker `w` has run. */
  function Turns(sched: seq<nat>, w: nat): nat {
    if sched == [] then 0
    else Turns(sched[..|sched| - 1], w) + if sched[|sched| - 1] == w then 1 else 0
  }

  /** The workers run in the order of `sched`; nobody runs past the end of its batch. */
  predicate Schedule(batches: seq<seq<Access>>, sched: seq<nat>) {
    sched == [] ||
    (var front, w := sched[..|sched| - 1], sched[|sched| - 1];
     Schedule(batches, front) && w < |batches| && Turns(front, w) < |batches[w]|)
  }

  /** Everybody is done. */
  predicate Complete(batches: seq<seq<Access>>, sched: seq<nat>) {
    Schedule(batches, sched) && forall w :: 0 <= w < |batches| ==> Turns(sched, w) == |batches[w]|
  }

  /** The puts in the order they happen. */
  function Puts(batches: seq<seq<Access>>, sched: seq<nat>): seq<Access>
    requires Schedule(batches, sched)
  {
    if sched == [] then []
    else
      var front, w := sched[..|sched| - 1], sched[|sched| - 1];
      Puts(batches, front) + [batches[w][Turns(front, w)]]
  }

  lemma {:induction false} TurnsBounded(batches: seq<seq<Access>>, sched: seq<nat>, w: nat)
    requires Schedule(batches, sched) && w < |batches|
    ensures Turns(sched, w) <= |batches[w]|
    decreases |sched|
  {
    if sched == [] {
    } else {
      TurnsBounded(batches, sched[..|sched| - 1], w);
    }
  }

  lemma PutsStep(batches: seq<seq<Access>>, sched: seq<nat>)
    requires Schedule(batches, sched) && sched != []
    ensures var front, v := sched[..|sched| - 1], sched[|sched| - 1];
            var e := batches[v][Turns(front, v)];
            KeyValues(Puts(batches, sched)) == KeyValues(Puts(batches, front))[FinalKey(e.item) := e.value]
  {
    var puts := Puts(batches, sched[..|sched| - 1]);
    assert Puts(batches, sched)[..|puts|] == puts;
  }

  lemma DoneStep(batch: seq<Access>, turn: nat)
    requires turn < |batch|
    ensures KeyValues(batch[..turn + 1]) == KeyValues(batch[..turn])[FinalKey(batch[turn].item) := batch[turn].value]
  {
    assert batch[..turn + 1][..turn] == batch[..turn];
  }

  /** What the workers have put so far under `k` is the last value of `k` in the done part of one batch. */
  lemma {:induction false} LastPut(batches: seq<seq<Access>>, sched: seq<nat>, k: Bytes) returns (w: nat)
    requires Schedule(batches, sched) && k in KeyValues(Puts(batches, sched))
    ensures w < |batches| && Turns(sched, w) <= |batches[w]|
    ensures var done := KeyValues(batches[w][..Turns(sched, w)]);
            k in done && done[k] == KeyValues(Puts(batches, sched))[k]
    decreases |sched|
  {
    var front, v := sched[..|sched| - 1], sched[|sched| - 1];
    PutsStep(batches, sched);
    DoneStep(batches[v], Turns(front, v));
    if FinalKey(batches[v][Turns(front, v)].item) == k {
      w := v;
    } else {
      w := LastPut(batches, front, k);
      TurnsBounded(batches, sched, w);
    }
  }

  // --- when the order does not matter ---

  lemma {:induction false} HasKey(list: seq<Access>, k: Bytes)
    ensures k in KeyValues(list) <==> exists p :: 0 <= p < |list| && FinalKey(list[p].item) == k
    decreases |list|
  {
    if list == [] {
    } else {
      HasKey(list[..|list| - 1], k);
    }
  }

  /** What a worker has done is among the puts. */
  lemma {:induction false} DonePut(batches: seq<seq<Access>>, sched: seq<nat>, w: nat, p: nat)
    requires Schedule(batches, sched) && w < |batches| && p < Turns(sched, w) <= |batches[w]|
    ensures batches[w][p] in Puts(batches, sched)
    decreases |sched|
  {
    var front := sched[..|sched| - 1];
    if p < Turns(front, w) {
      DonePut(batches, front, w, p);
    }
  }

  /** Every batch that writes a key ends with the value the whole list ends with. */
  ghost predicate LastAgrees(writes: seq<Access>, batches: seq<seq<Access>>) {
    forall w, k :: 0 <= w < |batches| && k in KeyValues(batches[w]) ==>
      k in KeyValues(writes) && KeyValues(batches[w])[k] == KeyValues(writes)[k]
  }

  predicate Sliced(writes: seq<Access>, slices: seq<Slice>, batches: seq<seq<Access>>) {
    && Tiles(slices, |writes|) && |batches| == |slices|
    && forall w :: 0 <= w < |slices| ==>
         slices[w].start < slices[w].end <= |writes| && batches[w] == writes[slices[w].start..slices[w].end]
  }

  /** A key of the list is put by every complete schedule. */
  lemma EveryKeyPut(writes: seq<Access>, slices: seq<Slice>, batches: seq<seq<Access>>, sched: seq<nat>, k: Bytes)
    requires Sliced(writes, slices, batches) && Complete(batches, sched) && k in KeyValues(writes)
    ensures k in KeyValues(Puts(batches, sched))
  {
    HasKey(writes, k);
    var p :| 0 <= p < |writes| && FinalKey(writes[p].item) == k;
    var w := CoveredOnce(slices, |writes|, p);
    var q := p - slices[w].start;
    assert batches[w][q] == writes[p];
    DonePut(batches, sched, w, q);
    var puts := Puts(batches, sched);
    var r :| 0 <= r < |puts| && puts[r] == batches[w][q];
    HasKey(puts, k);
  }

  /** With agreeing batches a complete schedule leaves the last values of the list. */
  lemma AgreedPuts(writes: seq<Access>, slices: seq<Slice>, batches: seq<seq<Access>>, sched: seq<nat>)
    requires Sliced(writes, slices, batches) && Complete(batches, sched) && LastAgrees(writes, batches)
    ensures KeyValues(Puts(batches, sched)) == KeyValues(writes)
  {
    var puts := Puts(batches, sched);
    forall k ensures k in KeyValues(puts) <==> k in KeyValues(writes) {
      if k in KeyValues(writes) {
        EveryKeyPut(writes, slices, batches, sched, k);
      } else if k in KeyValues(puts) {
        ValueAgrees(writes, batches, sched, k);
      }
    }
    forall k | k in KeyValues(puts) ensures KeyValues(puts)[k] == KeyValues(writes)[k] {
      ValueAgrees(writes, batches, sched, k);
    }
  }

  lemma ValueAgrees(writes: seq<Access>, batches: seq<seq<Access>>, sched: seq<nat>, k: Bytes)
    requires Complete(batches, sched) && LastAgrees(writes, batches) && k in KeyValues(Puts(batches, sched))
    ensures k in KeyValues(writes) && KeyValues(Puts(batches, sched))[k] == KeyValues(writes)[k]
  {
    var w := LastPut(batches, sched, k);
    assert batches[w][..|batches[w]|] == batches[w];
  }

  // --- the worker that finishes last ---

  /** `sched`, then `n` turns of worker `w`. */
  function Then(sched: seq<nat>, w: nat, n: nat): seq<nat> {
    if n == 0 then sched else Then(sched, w, n - 1) + [w]
  }

  lemma OneTurn(sched: seq<nat>, w: nat, v: nat)
    ensures Turns(sched + [w], v) == Turns(sched, v) + if v == w then 1 else 0
  {
    assert (sched + [w])[..|sched|] == sched;
  }

  lemma {:induction false} ThenTurns(sched: seq<nat>, w: nat, n: nat, v: nat)
    ensures Turns(Then(sched, w, n), v) == Turns(sched, v) + if v == w then n else 0
    decreases n
  {
    if n == 0 {
    } else {
      ThenTurns(sched, w, n - 1, v);
      OneTurn(Then(sched, w, n - 1), w, v);
    }
  }

  lemma OneMore(batches: seq<seq<Access>>, sched: seq<nat>, w: nat)
    requires Schedule(batches, sched) && w < |batches| && Turns(sched, w) < |batches[w]|
    ensures Schedule(batches, sched + [w])
    ensures var e := batches[w][Turns(sched, w)];
            KeyValues(Puts(batches, sched + [w])) == KeyValues(Puts(batches, sched))[FinalKey(e.item) := e.value]
  {
    assert (sched + [w])[..|sched|] == sched;
    var puts := Puts(batches, sched);
    assert (puts + [batches[w][Turns(sched, w)]])[..|puts|] == puts;
  }

  lemma {:induction false} ThenSchedule(batches: seq<seq<Access>>, sched: seq<nat>, w: nat, n: nat)
    requires Schedule(batches, sched) && w < |batches| && Turns(sched, w) + n <= |batches[w]|
    ensures Schedule(batches, Then(sched, w, n))
    decreases n
  {
    if n == 0 {
    } else {
      ThenSchedule(batches, sched, w, n - 1);
      ThenTurns(sched, w, n - 1, w);
      var before := Then(sched, w, n - 1);
      assert Then(sched, w, n) == before + [w];
      OneMore(batches, before, w);
    }
  }

  /** A worker that starts its batch leaves the batch's values. */
  lemma {:induction false} ThenPuts(batches: seq<seq<Access>>, sched: seq<nat>, w: nat, n: nat, k: Bytes)
    requires Schedule(batches, sched) && w < |batches| && Turns(sched, w) == 0 && n <= |batches[w]|
    requires Schedule(batches, Then(sched, w, n)) && k in KeyValues(batches[w][..n])
    ensures var puts := KeyValues(Puts(batches, Then(sched, w, n)));
            k in puts && puts[k] == KeyValues(batches[w][..n])[k]
    decreases n
  {
    if n == 0 {
    } else {
      var m: nat := n - 1;
      DoneStep(batches[w], m);
      ThenTurns(sched, w, m, w);
      ThenSchedule(batches, sched, w, m);
      OneMore(batches, Then(sched, w, m), w);
      if FinalKey(batches[w][m].item) != k {
        ThenPuts(batches, sched, w, m, k);
      }
    }
  }

  /** The first `m` workers one after the other, without `w`. */
  function AllBut(batches: seq<seq<Access>>, w: nat, m: nat): seq<nat>
    requires m <= |batches|
  {
    if m == 0 then []
    else if m - 1 == w then AllBut(batches, w, m - 1)
    else Then(AllBut(batches, w, m - 1), m - 1, |batches[m - 1]|)
  }

  lemma {:induction false} AllButTurns(batches: seq<seq<Access>>, w: nat, m: nat, v: nat)
    requires m <= |batches|
    ensures Turns(AllBut(batches, w, m), v) == if v < m && v != w then |batches[v]| else 0
    decreases m
  {
    if m == 0 {
    } else {
      AllButTurns(batches, w, m - 1, v);
      if m - 1 != w {
        ThenTurns(AllBut(batches, w, m - 1), m - 1, |batches[m - 1]|, v);
      }
    }
  }

  lemma {:induction false} AllButSchedule(batches: seq<seq<Access>>, w: nat, m: nat)
    requires m <= |batches|
    ensures Schedule(batches, AllBut(batches, w, m))
    decreases m
  {
    if m == 0 {
    } else {
      AllButSchedule(batches, w, m - 1);
      if m - 1 != w {
        AllButTurns(batches, w, m - 1, m - 1);
        ThenSchedule(batches, AllBut(batches, w, m - 1), m - 1, |batches[m - 1]|);
      }
    }
  }

  /** Worker `w` may run last, and then its last values stay. */
  lemma RunLast(batches: seq<seq<Access>>, w: nat) returns (sched: seq<nat>)
    requires w < |batches|
    ensures Complete(batches, sched)
    ensures forall k :: k in KeyValues(batches[w]) ==>
              k in KeyValues(Puts(batches, sched)) && KeyValues(Puts(batches, sched))[k] == KeyValues(batches[w])[k]
  {
    var m := |batches|;
    var rest := AllBut(batches, w, m);
    AllButSchedule(batches, w, m);
    AllButTurns(batches, w, m, w);
    sched := Then(rest, w, |batches[w]|);
    ThenSchedule(batches, rest, w, |batches[w]|);
    forall v | 0 <= v < m ensures Turns(sched, v) == |batches[v]| {
      AllButTurns(batches, w, m, v);
      ThenTurns(rest, w, |batches[w]|, v);
    }
    assert batches[w][..|batches[w]|] == batches[w];
    forall k | k in KeyValues(batches[w])
      ensures k in KeyValues(Puts(batches, sched)) && KeyValues(Puts(batches, sched))[k] == KeyValues(batches[w])[k]
    {
      ThenPuts(batches, rest, w, |batches[w]|, k);
    }
  }

  /** Every interleaving of the workers leaves the table of the serial loop if and only if the batches that write a key
      agree on its last value. */
  lemma WorkersAgreeIff(t: Cells, index: nat, writes: seq<Access>, slices: seq<Slice>, batches: seq<seq<Access>>)
    requires Sliced(writes, slices, batches)
    ensures (forall sched :: Complete(batches, sched) ==>
               PutAll(t, index, Puts(batches, sched)) == PutAll(t, index, writes)) <==>
            LastAgrees(writes, batches)
  {
    PutAllIsPutMap(t, index, writes);
    if LastAgrees(writes, batches) {
      forall sched | Complete(batches, sched) ensures PutAll(t, index, Puts(batches, sched)) == PutAll(t, index, writes) {
        AgreedPuts(writes, slices, batches, sched);
        PutAllIsPutMap(t, index, Puts(batches, sched));
      }
    } else {
      var w, k :| 0 <= w < |batches| && k in KeyValues(batches[w]) &&
                  !(k in KeyValues(writes) && KeyValues(batches[w])[k] == KeyValues(writes)[k]);
      SliceKey(writes, slices, batches, w, k);
      var sched := RunLast(batches, w);
      PutAllIsPutMap(t, index, Puts(batches, sched));
      assert PutAll(t, index, Puts(batches, sched))[k].value != PutAll(t, index, writes)[k].value;
    }
  }

  lemma SliceKey(writes: seq<Access>, slices: seq<Slice>, batches: seq<seq<Access>>, w: nat, k: Bytes)
    requires Sliced(writes, slices, batches) && w < |batches| && k in KeyValues(batches[w])
    ensures k in KeyValues(writes)
  {
    HasKey(batches[w], k);
    var p :| 0 <= p < |batches[w]| && FinalKey(batches[w][p].item) == k;
    assert writes[slices[w].start + p] == batches[w][p];
    HasKey(writes, k);
  }

  /** Distinct table keys, as the scheduler promises, are enough. */
  lemma DistinctKeysAgree(writes: seq<Access>, slices: seq<Slice>, batches: seq<seq<Access>>)
    requires Sliced(writes, slices, batches)
    requires DistinctKeys(writes)
    ensures LastAgrees(writes, batches)
  {
    forall w, k | 0 <= w < |batches| && k in KeyValues(batches[w])
      ensures k in KeyValues(writes) && KeyValues(batches[w])[k] == KeyValues(writes)[k]
    {
      SliceKey(writes, slices, batches, w, k);
      var p := ValueAt(batches[w], k);
      var q := ValueAt(writes, k);
      assert batches[w][p] == writes[slices[w].start + p];
    }
  }

  lemma {:induction false} ValueAt(list: seq<Access>, k: Bytes) returns (p: nat)
    requires k in KeyValues(list)
    ensures p < |list| && FinalKey(list[p].item) == k && list[p].value == KeyValues(list)[k]
    decreases |list|
  {
    p := |list| - 1;
    if FinalKey(list[p].item) != k {
      p := ValueAt(list[..p], k);
    }
  }

  // --- the goroutines ---

  predicate DistinctKeys(writes: seq<Access>) {
    forall p, q :: 0 <= p < q < |writes| ==> FinalKey(writes[p].item) != FinalKey(writes[q].item)
  }

  /** The puts that the first `m` workers still have to do. */
  function Left(batches: seq<seq<Access>>, turns: seq<nat>, m: nat): int
    requires m <= |batches| == |turns|
  {
    if m == 0 then 0 else Left(batches, turns, m - 1) + |batches[m - 1]| - turns[m - 1]
  }

  lemma {:induction false} LeftDrops(batches: seq<seq<Access>>, turns: seq<nat>, w: nat, m: nat)
    requires m <= |batches| == |turns| && w < |batches| && turns[w] < |batches[w]|
    requires forall v :: 0 <= v < m ==> turns[v] <= |batches[v]|
    ensures 0 <= Left(batches, turns, m)
    ensures Left(batches, turns[w := turns[w] + 1], m) == Left(batches, turns, m) - if w < m then 1 else 0
    ensures w < m ==> 0 < Left(batches, turns, m)
    decreases m
  {
    if m == 0 {
    } else {
      LeftDrops(batches, turns, w, m - 1);
    }
  }

  /** The workers run, whichever is next, until all are done. */
  method RunWorkers(t: Cells, index: nat, batches: seq<seq<Access>>) returns (t': Cells, ghost sched: seq<nat>)
    ensures Complete(batches, sched) && t' == PutAll(t, index, Puts(batches, sched))
  {
    t', sched := t, [];
    var turns: seq<nat> := seq(|batches|, _ => 0);
    while exists w :: 0 <= w < |batches| && turns[w] < |batches[w]|
      invariant |turns| == |batches| && Schedule(batches, sched)
      invariant forall w :: 0 <= w < |batches| ==> turns[w] == Turns(sched, w) <= |batches[w]|
      invariant t' == PutAll(t, index, Puts(batches, sched))
      decreases Left(batches, turns, |batches|)
    {
      var w: nat :| 0 <= w < |batches| && turns[w] < |batches[w]|;
      var e := batches[w][turns[w]];
      t' := t'[FinalKey(e.item) := Cell(index, e.value)];
      LeftDrops(batches, turns, w, |batches|);
      OnePut(t, index, batches, sched, w);
      forall v | 0 <= v < |batches| ensures Turns(sched + [w], v) == turns[w := turns[w] + 1][v] {
        OneTurn(sched, w, v);
      }
      turns := turns[w := turns[w] + 1];
      sched := sched + [w];
    }
  }

  lemma OnePut(t: Cells, index: nat, batches: seq<seq<Access>>, sched: seq<nat>, w: nat)
    requires Schedule(batches, sched) && w < |batches| && Turns(sched, w) < |batches[w]|
    ensures Schedule(batches, sched + [w])
    ensures var e := batches[w][Turns(sched, w)];
            PutAll(t, index, Puts(batches, sched + [w])) ==
            PutAll(t, index, Puts(batches, sched))[FinalKey(e.item) := Cell(index, e.value)]
  {
    assert (sched + [w])[..|sched|] == sched;
    var puts, e := Puts(batches, sched), batches[w][Turns(sched, w)];
    assert Puts(batches, sched + [w]) == puts + [e];
    PutOne(t, index, puts, e);
  }

  lemma PutOne(t: Cells, index: nat, puts: seq<Access>, e: Access)
    ensures PutAll(t, index, puts + [e]) == PutAll(t, index, puts)[FinalKey(e.item) := Cell(index, e.value)]
  {
    assert (puts + [e])[..|puts|] == puts;
  }

  /** What putting `writes` leaves: few are put in order, many in some order that keeps that of each of the eight batches. */
  ghost predicate PutByWorkers(t: Cells, index: nat, writes: seq<Access>, t': Cells) {
    if |writes| < 50 then t' == PutAll(t, index, writes)
    else
      exists slices, sched ::
        && IsPlan(|writes|, slices) && Complete(Batches(writes, slices), sched)
        && t' == PutAll(t, index, Puts(Batches(writes, slices), sched))
  }

  /** The eight batches agree on the last value of every key. */
  ghost predicate PlanAgrees(writes: seq<Access>) {
    forall slices :: IsPlan(|writes|, slices) ==> LastAgrees(writes, Batches(writes, slices))
  }

  /** The writes are put into the write table: one by one when there are few, else by the workers. */
  method ApplyWrites(t: Cells, index: nat, writes: seq<Access>) returns (t': Cells)
    ensures PutByWorkers(t, index, writes, t')
    ensures |writes| < 50 || PlanAgrees(writes) || DistinctKeys(writes) ==> t' == PutAll(t, index, writes)
  {
    if |writes| < CONCURRENT_THRESHOLD {
      t' := t;
      for p := 0 to |writes|
        invariant t' == PutAll(t, index, writes[..p])
      {
        assert writes[..p + 1][..p] == writes[..p];
        t' := t'[FinalKey(writes[p].item) := Cell(index, writes[p].value)];
      }
      assert writes[..|writes|] == writes;
      return;
    }
    var slices := Plan(|writes|);
    forall w | 0 <= w < |slices| ensures slices[w].start < slices[w].end <= |writes| {
      SliceInside(slices, |writes|, w);
    }
    var batches := Batches(writes, slices);
    ghost var sched;
    t', sched := RunWorkers(t, index, batches);
    assert Sliced(writes, slices, batches);
    if DistinctKeys(writes) {
      DistinctKeysAgree(writes, slices, batches);
    }
    WorkersAgreeIff(t, index, writes, slices, batches);
  }
}
