/** The block subscription: stored blocks are sent first, then new ones as they are announced.  The surroundings act
    between the steps as an arbitrary list of ticks says; a run ends when the list does. */
module BlockSubscription {
  /** Which ready case a select takes. */
  datatype Pick = Block | Client | Server

  /** One move of the surroundings: blocks are committed, an announced height is noted, the client or the server goes
      away, and the next rate token, read and send go well or not. */
  datatype Tick = Tick(grow: nat, announced: nat, done: bool, closing: bool, tokenOk: bool, readOk: bool, sendOk: bool, pick: Pick)

  /** The list of ticks is over, or the call returned a height, the final OK, nothing since a side went away, or an error. */
  datatype Outcome = Running | Returned(height: int) | Finished | Gone | Failed

  /** Heights fit into the signed 64-bit numbers the code turns them into. */
  const HEIGHT_LIMIT := 0x8000_0000_0000_0000

  /** The conversion to uint64. */
  function Unsigned(i: int): int {
    if i < 0 then i + 2 * HEIGHT_LIMIT else i
  }

  /** The heights `lo`, `lo + 1` up to `hi`. */
  function Heights(lo: int, hi: int): seq<int>
    decreases hi - lo
  {
    if hi < lo then [] else Heights(lo, hi - 1) + [hi]
  }

  lemma {:induction false} HeightsAt(lo: int, hi: int, i: nat)
    requires i < |Heights(lo, hi)|
    ensures |Heights(lo, hi)| == hi - lo + 1 && Heights(lo, hi)[i] == lo + i
    decreases hi - lo
  {
    if hi - 1 < lo {
      assert Heights(lo, hi - 1) == [];
    } else {
      HeightsAt(lo, hi - 1, if i < |Heights(lo, hi - 1)| then i else 0);
    }
  }

  /** Nobody leaves, and tokens, reads and sends go well. */
  predicate Fair(env: seq<Tick>) {
    forall i :: 0 <= i < |env| ==> env[i].tokenOk && env[i].readOk && env[i].sendOk && !env[i].done && !env[i].closing
  }

  /** checkSubscribeBlockHeight */
  predicate Proper(start: int, end: int) {
    -1 <= start && -1 <= end && (end == -1 || start <= end)
  }

  /** A height that was announced. */
  predicate Announced(env: seq<Tick>, h: int) {
    exists i :: 0 <= i < |env| && env[i].announced == h
  }

  class Stream {
    var env: seq<Tick>
    /** The blocks with heights below this are in the store. */
    var stored: nat
    /** The height noted last by the event updater. */
    var last: nat
    var done: bool
    var closing: bool
    var sent: seq<int>
    /** The number of blocks sent when the client or the server went away. */
    ghost var sentAtStop: nat

    constructor (env: seq<Tick>, stored: nat)
      requires stored < HEIGHT_LIMIT
      ensures Valid() && sent == [] && !done && !closing
      ensures this.env == env && this.stored == stored
    {
      this.env, this.stored, last := env, stored, 0;
      done, closing, sent, sentAtStop := false, false, [], 0;
    }

    predicate Stopped()
      reads this
    {
      done || closing
    }

    /** After a stop at most the block in flight is sent. */
    ghost predicate Valid()
      reads this
    {
      && stored < HEIGHT_LIMIT && (if stored == 0 then last == 0 else last < stored)
      && (Stopped() ==> sentAtStop <= |sent| <= sentAtStop + 1)
    }

    /** What was sent is a gapless run of stored blocks from `first` on, within the end. */
    ghost predicate Gapless(first: int, end: int)
      reads this
    {
      && 0 <= first && sent == Heights(first, first + |sent| - 1)
      && (sent != [] ==> first + |sent| <= stored && (end != -1 ==> first + |sent| - 1 <= end))
    }

    /** Everything from `first` up to `reached` was sent, or a side went away, or nothing will ever be (`reached` -2). */
    ghost predicate Reached(first: int, end: int, reached: int)
      reads this
    {
      && Valid() && stored >= 1 && Gapless(first, end) && -1 <= end && -2 <= reached
      && (|| Stopped()
          || (reached == -2 && sent == [])
          || (reached == first + |sent| - 1 && (end != -1 ==> first <= end)))
    }

    /** The surroundings move. */
    method Next() returns (t: Tick)
      requires Valid() && env != []
      modifies this
      ensures Valid() && t == old(env[0]) && env == old(env[1..]) && sent == old(sent)
      ensures old(stored) <= stored <= old(stored) + t.grow && (old(Stopped()) ==> Stopped() && sentAtStop == old(sentAtStop))
      ensures Stopped() && !old(Stopped()) ==> sentAtStop == |sent|
      ensures Stopped() <==> old(Stopped()) || t.done || t.closing
      ensures last == if t.announced < stored then t.announced else old(last)
    {
      t := env[0];
      env := env[1..];
      if stored + t.grow < HEIGHT_LIMIT {
        stored := stored + t.grow;
      }
      if t.announced < stored {
        last := t.announced;
      }
      if (t.done || t.closing) && !Stopped() {
        sentAtStop := |sent|;
      }
      done, closing := done || t.done, closing || t.closing;
    }

    /** Whether a call that began in the old state kept what every call keeps. */
    twostate predicate Kept()
      reads this
    {
      && |env| <= old(|env|) && old(stored) <= stored && old(sent) <= sent
      && (old(Stopped()) ==> Stopped() && sentAtStop == old(sentAtStop) && sent == old(sent))
      && (Fair(old(env)) ==> Fair(env) && (!old(Stopped()) ==> !Stopped()))
    }

    /** What the turn at height `i` of sendHistoryBlock can return with. */
    ghost predicate StopsAt(i: int, end: int, o: Outcome)
      reads this
    {
      match o
      case Failed => true
      case Returned(h) => (Stopped() && h == -1) || (h == i - 1 && ((end != -1 && i > end) || Unsigned(i) >= stored))
      case _ => false
    }

    /** One turn of sendHistoryBlock; `more` if it sent block `i` and goes on. */
    method HistoryTurn(i: int, end: int, ghost first: int) returns (o: Outcome, more: bool)
      requires env != [] && Valid() && Gapless(first, end) && -1 <= i
      requires Stopped() || i == -1 || i == first + |sent|
      modifies this
      ensures Valid() && Gapless(first, end) && Kept() && |env| < old(|env|)
      ensures more ==> o == Running && !old(Stopped()) && i != -1 && (end != -1 ==> i <= end) && sent == old(sent) + [i]
      ensures !more ==> sent == old(sent) && (o == Running || StopsAt(i, end, o))
      ensures old(|env|) - 2 <= |env| && (!more && o == Running ==> old(|env|) < 2)
      ensures Fair(old(env)) && !old(Stopped()) ==> o != Failed
    {
      var t := Next();
      if Stopped() {
        return if done && (!closing || t.pick == Client) then Returned(-1) else Failed, false;
      }
      if env == [] {
        return Running, false;
      }
      t := Next();
      if !t.tokenOk {
        return Failed, false;
      }
      if end != -1 && i > end {
        return Returned(i - 1), false;
      }
      if !t.readOk {
        return Failed, false;
      }
      if Unsigned(i) >= stored {
        return Returned(i - 1), false;
      }
      if !t.sendOk {
        return Failed, false;
      }
      sent := sent + [i];
      return Running, true;
    }

    /** sendHistoryBlock: from `start` on, one block a turn, until the end or the last stored block.  A client that has
        gone away gives -1 without an error.  From -1 on nothing is found, since the height is converted to uint64. */
    method SendHistory(start: int, end: int, ghost first: int) returns (o: Outcome)
      requires Reached(first, end, start - 1)
      modifies this
      ensures Valid() && Gapless(first, end) && Kept()
      ensures start == -1 ==> sent == old(sent)
      ensures o.Returned? && !Stopped() ==> Reached(first, end, o.height) && (o.height == -2 <==> start == -1)
      ensures o.Returned? && Stopped() ==> -2 <= o.height
      ensures o.Returned? && !Stopped() && start != -1 ==> (end != -1 && o.height >= end) || o.height + 1 >= old(stored)
      ensures !o.Finished? && !o.Gone?
      ensures Fair(old(env)) && !old(Stopped()) ==> o != Failed
      ensures Fair(old(env)) && !old(Stopped()) && 0 <= start <= end < old(stored) && 2 * (end - start + 2) <= old(|env|) ==>
                o.Returned?
    {
      var i := start;
      var more := true;
      o := Running;
      while more && env != []
        invariant Valid() && Gapless(first, end) && Kept() && start <= i
        invariant old(|env|) <= |env| + 2 * (i - start) + (if more then 0 else 2)
        invariant !more && o == Running ==> |env| < 2 && old(|env|) < 2 * (i - start) + 2
        invariant Fair(old(env)) && !old(Stopped()) ==> o != Failed
        invariant end != -1 && start <= end + 1 ==> i <= end + 1
        invariant old(Stopped()) || start == -1 || i == first + |sent|
        invariant start == -1 ==> i == -1 && sent == old(sent)
        invariant more ==> o == Running
        invariant !more && !o.Running? ==> StopsAt(i, end, o)
        decreases |env|
      {
        o, more := HistoryTurn(i, end, first);
        if more {
          i := i + 1;
        }
      }
    }

    /** One select of sendNewBlock; `goOn` if the loop goes on. */
    method Turn(end: int, reached: int, ghost first: int) returns (o: Outcome, reached': int, goOn: bool)
      requires env != [] && Reached(first, end, reached)
      modifies this
      ensures Valid() && Kept() && |env| < old(|env|) && Gapless(first, end)
      ensures goOn ==> Reached(first, end, reached')
      ensures reached == -2 ==> sent == old(sent) && (goOn ==> Stopped() || reached' == -2)
      ensures goOn && !Stopped() && old(env)[0].pick == Block && -1 <= reached < old(env)[0].announced < old(stored) ==>
                reached' + 1 >= old(stored) || (end != -1 && reached' >= end)
      ensures o.Finished? && !Stopped() ==> end != -1 && reached != -2 && sent == Heights(first, end)
      ensures Fair(old(env)) && !old(Stopped()) ==> !o.Failed? && !o.Gone?
    {
      var t := Next();
      o, reached', goOn := Running, reached, true;
      match t.pick {
        case Block =>
          if end != -1 && reached >= end {
            return Finished, reached, false;
          }
          if reached < last {
            o := SendHistory(reached + 1, end, first);
            goOn := o.Returned?;
            reached' := if goOn then o.height else reached;
          }
        case Client =>
          if done {
            return Gone, reached, false;
          }
        case Server =>
          if closing {
            return Gone, reached, false;
          }
      }
    }

    /** The select loop of sendNewBlock. */
    method Follow(end: int, reached0: int, ghost first: int) returns (o: Outcome)
      requires Reached(first, end, reached0)
      modifies this
      ensures Valid() && Kept() && Gapless(first, end)
      ensures reached0 == -2 ==> sent == old(sent)
      ensures o.Finished? && !Stopped() ==> end != -1 && reached0 != -2 && sent == Heights(first, end)
      ensures Fair(old(env)) && !old(Stopped()) ==> !o.Failed? && !o.Gone?
    {
      var reached, goOn := reached0, true;
      o := Running;
      while goOn && env != []
        invariant Valid() && Kept() && Gapless(first, end) && (goOn ==> Reached(first, end, reached))
        invariant reached0 == -2 ==> sent == old(sent) && (goOn ==> Stopped() || reached == -2)
        invariant o.Finished? && !Stopped() ==> end != -1 && reached0 != -2 && sent == Heights(first, end)
        invariant Fair(old(env)) && !old(Stopped()) ==> !o.Failed? && !o.Gone?
        decreases |env|
      {
        o, reached, goOn := Turn(end, reached, first);
      }
      if goOn {
        o := Running;
      }
    }

    /** sendNewBlock: on every announcement the blocks stored since are sent.  With `already` -1 sending starts above the
        height noted when the subscription began. */
    method SendNew(end: int, already: int, ghost start: int) returns (o: Outcome, ghost first: int)
      requires Valid() && stored >= 1 && Gapless(start, end) && -1 <= end && -2 <= already
      requires already != -1 ==> Reached(start, end, already)
      requires already == -1 && !Stopped() ==> sent == [] && end == -1
      modifies this
      ensures Valid() && Kept() && Gapless(first, end) && (already != -1 || old(Stopped()) ==> first == start)
      ensures already == -2 ==> sent == old(sent)
      ensures o.Finished? && !Stopped() ==> end != -1 && already != -2 && sent == Heights(first, end)
      ensures already == -1 && sent != old(sent) ==> first >= old(stored) || Announced(old(env), first - 1)
      ensures Fair(old(env)) && !old(Stopped()) ==> !o.Failed? && !o.Gone?
    {
      o, first := Running, start;
      if env == [] {
        return;
      }
      var t := Next();
      if !t.readOk {
        return Failed, start;
      }
      last := stored - 1;
      if env == [] {
        return;
      }
      t := Next();
      var reached := if already == -1 then last as int else already;
      if already == -1 && !old(Stopped()) {
        first := reached + 1;
        assert t == old(env)[1];
      }
      o := Follow(end, reached, first);
    }

    /** sendBlock: from a height on, or new blocks only (`start` and `end` -1).  With `start` -1 and an end nothing is ever
        sent, and where the end is stored already the call still ends with OK. */
    method SendBlock(start: int, end: int, lastKnown: nat) returns (o: Outcome, ghost first: int)
      requires Valid() && sent == [] && -1 <= start && -1 <= end && (end != -1 ==> start <= end)
      requires lastKnown < stored
      modifies this
      ensures Valid() && Kept() && Gapless(first, end) && (start != -1 ==> first == start)
      ensures old(Stopped()) || (start == -1 && end != -1) ==> sent == []
      ensures o.Finished? && !Stopped() ==> end != -1 && (start != -1 ==> sent == Heights(start, end))
      ensures start == -1 && end == -1 && sent != [] ==> first >= old(stored) || Announced(old(env), first - 1)
      ensures Fair(old(env)) && !old(Stopped()) ==> !o.Failed? && !o.Gone?
      ensures Fair(old(env)) && !old(Stopped()) && 0 <= start <= end <= lastKnown && 2 * (end - start + 2) <= old(|env|) ==>
                o.Finished?
    {
      first := if start == -1 then 0 else start;
      if start == -1 && end == -1 {
        o, first := SendNew(end, -1, 0);
        return;
      }
      o := SendHistory(start, end, first);
      if !o.Returned? {
        return;
      }
      if end != -1 && end <= lastKnown {
        return Finished, first;
      }
      o, first := SendNew(end, o.height, first);
    }

    /** dealBlockSubscription: bad heights, an empty store and a start above the last block are refused. */
    method DealBlockSubscription(start: int, end: int) returns (o: Outcome, ghost first: int)
      requires Valid() && sent == []
      modifies this
      ensures Valid() && Gapless(first, end) && (0 <= start ==> first == start)
      ensures !Proper(start, end) ==> o.Failed? && sent == []
      ensures o.Finished? && !Stopped() ==> end != -1 && (start != -1 ==> sent == Heights(start, end))
      ensures start == -1 && end != -1 ==> sent == []
      ensures sent != [] || o.Finished? || o.Gone? ==> 0 < stored && start < stored
      ensures old(env) != [] && old(stored) + old(env)[0].grow <= (if start < 0 then 0 else start) ==> o.Failed? && sent == []
      ensures start == -1 && end == -1 && (forall i :: 0 <= i < old(|env|) ==> old(env)[i].announced + 1 >= old(stored)) ==>
                forall i :: 0 <= i < |sent| ==> sent[i] >= old(stored)
      ensures Fair(old(env)) && !old(Stopped()) && 0 < old(stored) && -1 <= start < old(stored) && Proper(start, end) ==>
                !o.Failed? && !o.Gone?
      ensures Fair(old(env)) && !old(Stopped()) && 0 <= start <= end < old(stored) && 2 * (end - start + 2) < old(|env|) ==>
                o.Finished? && sent == Heights(start, end)
    {
      first := if start < 0 then 0 else start;
      if start < -1 || end < -1 || (end != -1 && start > end) {
        return Failed, first;
      }
      if env == [] {
        return Running, first;
      }
      var t := Next();
      if !t.readOk || stored == 0 {
        return Failed, first;
      }
      var lastBlockHeight := stored - 1;
      if lastBlockHeight < start {
        return Failed, first;
      }
      o, first := SendBlock(start, end, lastBlockHeight);
      forall i | 0 <= i < |sent| ensures sent[i] == first + i {
        HeightsAt(first, first + |sent| - 1, i);
      }
    }
  }
}
