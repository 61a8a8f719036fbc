/** One transaction's run as its simulation context records it, and the serial meaning of a list
    of applied transactions. */
module TxLog {
  type Key = string
  type Value = string

  /** What the contract did, in order: a value it was given, or a value it put. */
  datatype Event = Read(key: Key, value: Value) | Write(key: Key, value: Value)

  /** The five ways ApplyTxSimContext treats a transaction.  `Deferred` is the first run of an iterator
      transaction, `Rerun` its second run. */
  datatype Kind = Normal | SZ | Deferred | Rerun | Gas
  {
    /** The kinds whose append is refused once the snapshot is sealed. */
    predicate Gated() { Normal? || SZ? || Deferred? }

    /** The kinds that are checked for conflicts before they are appended. */
    predicate Checked() { Normal? || SZ? }
  }

  /** One row of txTable and txRWSetTable: the transaction, and the run that produced it. */
  datatype Entry = Entry(tx: nat, kind: Kind, success: bool, log: seq<Event>, readSet: map<Key, Value>, writes: map<Key, Value>)

  function Front<T>(s: seq<T>): seq<T>
    requires s != []
  {
    s[..|s| - 1]
  }

  function Last<T>(s: seq<T>): T
    requires s != []
  {
    s[|s| - 1]
  }

  /** The write set a log leaves behind. */
  function LastWrites(log: seq<Event>): map<Key, Value> {
    if log == [] then map[]
    else
      match Last(log)
      case Read(_, _) => LastWrites(Front(log))
      case Write(k, v) => LastWrites(Front(log))[k := v]
  }

  /** Event `p` is the last write of `k`. */
  predicate IsLastWrite(log: seq<Event>, k: Key, p: int) {
    && 0 <= p < |log| && log[p].Write? && log[p].key == k
    && forall q :: p < q < |log| && log[q].Write? ==> log[q].key != k
  }

  /** `m` has `k` with the last value that the log writes to it, or not at all if the log does not write it. */
  ghost predicate WrittenLast(log: seq<Event>, m: map<Key, Value>, k: Key) {
    && (k in m <==> exists p :: 0 <= p < |log| && log[p].Write? && log[p].key == k)
    && (forall p :: IsLastWrite(log, k, p) ==> k in m && m[k] == log[p].value)
  }

  lemma LastWriteOther(log: seq<Event>, m0: map<Key, Value>, m: map<Key, Value>, k: Key)
    requires log != [] && WrittenLast(Front(log), m0, k) && (Last(log).Write? ==> Last(log).key != k)
    requires (k in m <==> k in m0) && (k in m0 ==> m[k] == m0[k])
    ensures WrittenLast(log, m, k)
  {
    var front := Front(log);
    forall p | IsLastWrite(log, k, p) ensures IsLastWrite(front, k, p) && front[p] == log[p] {
    }
    if p :| 0 <= p < |front| && front[p].Write? && front[p].key == k {
      assert log[p] == front[p];
    }
  }

  lemma LastWriteThis(log: seq<Event>, m: map<Key, Value>, k: Key)
    requires log != [] && Last(log).Write? && Last(log).key == k && k in m && m[k] == Last(log).value
    ensures WrittenLast(log, m, k)
  {
  }

  /** The write set has the last value written to each key, and no other keys. */
  lemma {:induction false} LastWritesAre(log: seq<Event>, k: Key)
    ensures WrittenLast(log, LastWrites(log), k)
    decreases |log|
  {
    if log == [] {
    } else if Last(log).Write? && Last(log).key == k {
      LastWriteThis(log, LastWrites(log), k);
    } else {
      LastWritesAre(Front(log), k);
      LastWriteOther(log, LastWrites(Front(log)), LastWrites(log), k);
    }
  }

  /** The value of `k` after the transactions of `table` ran one after the other over `base`. */
  function SerialValue(base: Key -> Value, table: seq<Entry>, k: Key): Value {
    if table == [] then base(k)
    else if k in Last(table).writes then Last(table).writes[k]
    else SerialValue(base, Front(table), k)
  }

  /** `log` is what a contract running alone after `table` would have recorded: every value it was given is
      its own last put, or else the serial value. */
  predicate SerialLog(base: Key -> Value, table: seq<Entry>, log: seq<Event>) {
    log != [] ==>
      && SerialLog(base, table, Front(log))
      && (Last(log).Read? ==>
            var own := LastWrites(Front(log));
            Last(log).value == if Last(log).key in own then own[Last(log).key]
                               else SerialValue(base, table, Last(log).key))
  }

  /** The value read at event `p` is the transaction's own last put before it, or else the serial value. */
  predicate ReadSerially(base: Key -> Value, table: seq<Entry>, log: seq<Event>, p: nat)
    requires p < |log|
  {
    log[p].Read? ==>
      log[p].value == if log[p].key in LastWrites(log[..p]) then LastWrites(log[..p])[log[p].key]
                      else SerialValue(base, table, log[p].key)
  }

  lemma {:induction false} SerialLogIs(base: Key -> Value, table: seq<Entry>, log: seq<Event>)
    ensures SerialLog(base, table, log) <==> forall p :: 0 <= p < |log| ==> ReadSerially(base, table, log, p)
    decreases |log|
  {
    if log == [] {
    } else {
      var front, n := Front(log), |log| - 1;
      SerialLogIs(base, table, front);
      forall p | 0 <= p < n ensures ReadSerially(base, table, log, p) <==> ReadSerially(base, table, front, p) {
        assert front[..p] == log[..p] && front[p] == log[p];
      }
      assert log[..n] == front;
      if forall p :: 0 <= p < |log| ==> ReadSerially(base, table, log, p) {
        assert ReadSerially(base, table, log, n);
      }
    }
  }

  /** The index of the last transaction of `table` that wrote `k`, or -1. */
  function LastWriter(table: seq<Entry>, k: Key): (i: int)
    ensures -1 <= i < |table|
    ensures 0 <= i ==> k in table[i].writes
    ensures forall j :: i < j < |table| ==> k !in table[j].writes
  {
    if table == [] then -1
    else if k in Last(table).writes then |table| - 1
    else LastWriter(Front(table), k)
  }

  lemma {:induction false} SerialValueByWriter(base: Key -> Value, table: seq<Entry>, k: Key)
    ensures var w := LastWriter(table, k);
            SerialValue(base, table, k) == if w < 0 then base(k) else table[w].writes[k]
  {
    if table == [] {
    } else {
      SerialValueByWriter(base, Front(table), k);
    }
  }

  /** The reads of `log` that were not answered by the transaction itself are answered by `seen`. */
  predicate LogOn(seen: map<Key, Value>, log: seq<Event>) {
    log != [] ==>
      && LogOn(seen, Front(log))
      && (Last(log).Read? ==>
            var own := LastWrites(Front(log));
            if Last(log).key in own then Last(log).value == own[Last(log).key]
            else Last(log).key in seen && Last(log).value == seen[Last(log).key])
  }

  lemma {:induction false} LogOnGrows(seen: map<Key, Value>, k: Key, v: Value, log: seq<Event>)
    requires LogOn(seen, log) && k !in seen
    ensures LogOn(seen[k := v], log)
  {
    if log == [] {
    } else {
      LogOnGrows(seen, k, v, Front(log));
    }
  }

  /** A log answered by serial values is a serial log. */
  lemma {:induction false} LogOnIsSerial(base: Key -> Value, table: seq<Entry>, seen: map<Key, Value>, log: seq<Event>)
    requires LogOn(seen, log)
    requires forall k :: k in seen ==> seen[k] == SerialValue(base, table, k)
    ensures SerialLog(base, table, log)
  {
    if log == [] {
    } else {
      LogOnIsSerial(base, table, seen, Front(log));
    }
  }
}
