/** The dispatcher of transaction results: one channel per registered transaction, one child per chain.  Every operation
    of a child runs under its lock, so the steps of a run are whole operations in any order. */
module Dispatcher {
  type TxId = string
  type ChainId = string

  datatype TxResult = TxResult(code: int, timestamp: int, height: nat)

  /** A result channel with room for one result. */
  class Channel {
    var buffer: seq<TxResult>
    var closed: bool

    constructor ()
      ensures buffer == [] && !closed
    {
      buffer, closed := [], false;
    }

    /** A send that does not block; on a closed channel it would panic. */
    method TrySend(r: TxResult)
      requires !closed
      modifies this`buffer
      ensures buffer == if |old(buffer)| < 1 then old(buffer) + [r] else old(buffer)
    {
      if |buffer| < 1 {
        buffer := buffer + [r];
      }
    }

    /** Closing twice would panic. */
    method Close()
      requires !closed
      modifies this`closed
      ensures closed
    {
      closed := true;
    }
  }

  /** No object serves two keys. */
  predicate OneEach<V(==)>(m: map<string, V>) {
    forall a, b :: a in m && b in m && m[a] == m[b] ==> a == b
  }

  class Child {
    var txRegs: map<TxId, Channel>
    var txCount: int
    var stopped: bool
    /** Every channel ever handed out. */
    ghost var issued: set<Channel>

    ghost predicate Valid()
      reads this, issued
    {
      && txRegs.Values <= issued
      && txCount == |txRegs|
      && OneEach(txRegs)
      && (forall c :: c in issued ==> |c.buffer| <= 1 && (c.closed <==> c !in txRegs.Values))
    }

    constructor ()
      ensures Valid() && txRegs == map[] && issued == {} && !stopped
    {
      txRegs, txCount, stopped, issued := map[], 0, false, {};
    }

    method Register(tx: TxId) returns (c: Channel?)
      requires Valid()
      modifies this`txRegs, this`txCount, this`issued
      ensures Valid()
      ensures c == null <==> tx in old(txRegs)
      ensures c == null ==> txRegs == old(txRegs) && issued == old(issued)
      ensures c != null ==> fresh(c) && txRegs == old(txRegs)[tx := c] && issued == old(issued) + {c}
      ensures c != null ==> c.buffer == [] && !c.closed
    {
      if tx in txRegs {
        return null;
      }
      txCount := txCount + 1;
      var ch := new Channel();
      AddValue(txRegs, tx, ch);
      AddOneEach(txRegs, tx, ch);
      txRegs, issued := txRegs[tx := ch], issued + {ch};
      c := ch;
    }

    method Unregister(tx: TxId)
      requires Valid()
      modifies this`txRegs, this`txCount, txRegs.Values`closed
      ensures Valid() && issued == old(issued) && txRegs == old(txRegs) - {tx}
      ensures tx in old(txRegs) ==> old(txRegs)[tx].closed
      ensures forall c :: c in issued ==> c.buffer == old(c.buffer)
    {
      if tx in txRegs {
        var c := txRegs[tx];
        txCount := txCount - 1;
        DropValue(txRegs, tx);
        txRegs := txRegs - {tx};
        c.Close();
      }
    }

    method TrySendTxResult(tx: TxId, r: TxResult)
      requires Valid()
      modifies txRegs.Values`buffer
      ensures Valid()
      ensures forall c :: c in issued ==>
                c.buffer == if tx in txRegs && c == txRegs[tx] && old(c.buffer) == [] then [r] else old(c.buffer)
    {
      if tx in txRegs {
        txRegs[tx].TrySend(r);
      }
    }

    /** Stopping twice would panic. */
    method Stop()
      requires !stopped
      modifies this`stopped
      ensures stopped
    {
      stopped := true;
    }
  }

  lemma AddValue(m: map<TxId, Channel>, tx: TxId, c: Channel)
    requires tx !in m
    ensures |m[tx := c]| == |m| + 1 && m[tx := c].Values == m.Values + {c}
  {
    var m' := m[tx := c];
    assert m'.Keys == m.Keys + {tx};
    assert m'[tx] == c;
    forall v | v in m.Values ensures v in m'.Values {
      var k :| k in m && m[k] == v;
      assert m'[k] == v;
    }
  }

  lemma AddOneEach<V>(m: map<string, V>, k: string, c: V)
    requires c !in m.Values && OneEach(m)
    ensures OneEach(m[k := c])
  {
    assert forall a :: a in m ==> m[a] in m.Values && m[a] != c;
  }

  lemma DropValue(m: map<TxId, Channel>, tx: TxId)
    requires tx in m && OneEach(m)
    ensures |m - {tx}| == |m| - 1 && (m - {tx}).Values == m.Values - {m[tx]} && OneEach(m - {tx})
  {
    var m' := m - {tx};
    assert m'.Keys == m.Keys - {tx};
    forall v | v in m.Values && v != m[tx] ensures v in m'.Values {
      var k :| k in m && m[k] == v;
      assert m'[k] == v;
    }
  }

  class Root {
    /** Replaced as a whole at every change. */
    var childs: map<ChainId, Child>

    /** The children run, each for its own chain. */
    ghost predicate Valid()
      reads this, childs.Values
    {
      OneEach(childs) && forall id :: id in childs ==> !childs[id].stopped
    }

    constructor ()
      ensures Valid() && childs == map[]
    {
      childs := map[];
    }

    /** A new child is stored. */
    method StoreChild(id: ChainId)
      requires Valid()
      modifies this`childs
      ensures Valid() && id in childs && fresh(childs[id]) && childs == old(childs)[id := childs[id]]
    {
      var child := new Child();
      AddOneEach(childs, id, child);
      childs := childs[id := child];
    }

    /** The first loop: children for the configured chains that had none.  It stops at a chain without an event feed. */
    method AddMissing(config: seq<ChainId>, available: ChainId -> bool) returns (ok: bool)
      requires Valid()
      modifies this`childs
      ensures Valid() && forall id :: id in childs ==> id in old(childs) || id in config
      ensures forall id :: id in old(childs) ==> id in childs
      ensures forall id :: id in childs ==> if id in old(childs) then childs[id] == old(childs)[id] else fresh(childs[id])
      ensures ok ==> forall id :: id in config ==> id in childs
      ensures ok <==> forall id :: id in config && id !in old(childs) ==> available(id)
    {
      var before := childs;
      for i := 0 to |config|
        invariant Valid() && forall id :: id in childs ==> id in before || id in config
        invariant forall id :: id in before ==> id in childs
        invariant forall id :: id in childs ==> if id in before then childs[id] == before[id] else fresh(childs[id])
        invariant forall id :: id in config[..i] ==> id in childs && (id in before || available(id))
      {
        var id := config[i];
        if id !in before {
          if !available(id) {
            return false;
          }
          StoreChild(id);
        }
      }
      ok := true;
    }

    /** The second loop: children of chains that are no longer configured are stopped and deleted. */
    method DropUnconfigured(config: set<ChainId>)
      requires Valid()
      modifies this`childs, childs.Values`stopped
      ensures Valid() && childs == map id | id in old(childs) && id in config :: old(childs)[id]
      ensures forall id :: id in old(childs) ==> (old(childs)[id].stopped <==> id !in config)
    {
      var before := childs;
      var todo := before.Keys;
      while todo != {}
        invariant todo <= before.Keys && Valid()
        invariant forall id :: id in childs <==> id in before && (id in todo || id in config)
        invariant forall id :: id in childs ==> childs[id] == before[id]
        invariant forall id :: id in before ==> (before[id].stopped <==> id !in todo && id !in config)
        decreases |todo|
      {
        var id :| id in todo;
        todo := todo - {id};
        if id !in config {
          before[id].Stop();
          childs := childs - {id};
        }
      }
    }

    /** CheckAndUpdate: after success the children are those of the configured chains, and a child that stays is the one
        that was there, with its registrations. */
    method CheckAndUpdate(config: seq<ChainId>, available: ChainId -> bool) returns (ok: bool)
      requires Valid()
      modifies this`childs, childs.Values`stopped
      ensures Valid() && (ok <==> forall id :: id in config && id !in old(childs) ==> available(id))
      ensures ok ==> childs.Keys == set id | id in config
      ensures forall id :: id in old(childs) && (id in config || !ok) ==> id in childs && childs[id] == old(childs)[id]
      ensures forall id :: id in old(childs) ==> (old(childs)[id].stopped <==> ok && id !in config)
    {
      ok := AddMissing(config, available);
      if ok {
        DropUnconfigured(set id | id in config);
      }
    }
  }
}
