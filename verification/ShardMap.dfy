/** The sharded table: 64 maps, a key's shard chosen by a 32-bit FNV hash. */
module ShardMap {
  import opened Basics

  const SHARD_NUM := 64
  const PRIME32 := 16777619
  const OFFSET32: bv32 := 2166136261
  const WRAP := 0x1_0000_0000

  type Key = seq<bv8>

  /** One step of the hash: multiply with wrap-around, then xor the byte. */
  function Mix(hash: bv32, b: bv8): bv32 {
    (((hash as int) * PRIME32 % WRAP) as bv32) ^ (b as bv32)
  }

  function Hash(key: Key): bv32 {
    if key == [] then OFFSET32 else Mix(Hash(key[..|key| - 1]), key[|key| - 1])
  }

  /** The hashes on the way: they start from 2166136261, and each byte multiplies by 16777619 modulo 2^32 and then is
      xor-ed in. */
  ghost predicate Trace(key: Key, hashes: seq<bv32>) {
    && |hashes| == |key| + 1 && hashes[0] == 2166136261
    && forall i :: 0 <= i < |key| ==> IsStep(hashes[i], key[i], hashes[i + 1])
  }

  ghost predicate IsStep(hash: bv32, b: bv8, hash': bv32) {
    hash' == (((hash as int) * 16777619 % 4294967296) as bv32) ^ (b as bv32)
  }

  lemma MixIsStep(hash: bv32, b: bv8)
    ensures IsStep(hash, b, Mix(hash, b))
  {
  }

  lemma Longer(key: Key, hashes: seq<bv32>, b: bv8, hash: bv32)
    requires Trace(key, hashes) && IsStep(hashes[|key|], b, hash)
    ensures Trace(key + [b], hashes + [hash])
  {
    var key', hashes' := key + [b], hashes + [hash];
    forall i | 0 <= i < |key'| ensures IsStep(hashes'[i], key'[i], hashes'[i + 1]) {
      if i < |key| {
        assert IsStep(hashes[i], key[i], hashes[i + 1]);
      }
    }
  }

  lemma TraceStep(key: Key, hashes: seq<bv32>, b: bv8)
    requires Trace(key, hashes)
    ensures Trace(key + [b], hashes + [Mix(hashes[|key|], b)])
  {
    MixIsStep(hashes[|key|], b);
    Longer(key, hashes, b, Mix(hashes[|key|], b));
  }

  lemma {:induction false} HashTrace(key: Key) returns (hashes: seq<bv32>)
    ensures Trace(key, hashes) && Hash(key) == hashes[|key|]
    decreases |key|
  {
    if key == [] {
      hashes := [OFFSET32];
    } else {
      var front, b := key[..|key| - 1], key[|key| - 1];
      hashes := HashTrace(front);
      TraceStep(front, hashes, b);
      assert key == front + [b];
      hashes := hashes + [Mix(hashes[|front|], b)];
    }
  }

  function ShardOf(key: Key): (i: nat)
    ensures i < SHARD_NUM
  {
    (Hash(key) as int) % SHARD_NUM
  }

  method Fnv32(key: Key) returns (hash: bv32)
    ensures hash == Hash(key) && exists hashes :: Trace(key, hashes) && hash == hashes[|key|]
  {
    hash := OFFSET32;
    for i := 0 to |key|
      invariant hash == Hash(key[..i])
    {
      assert key[..i + 1][..i] == key[..i];
      hash := Mix(hash, key[i]);
    }
    assert key[..|key|] == key;
    ghost var hashes := HashTrace(key);
  }

  method ShardNum(key: Key) returns (i: nat)
    ensures i == ShardOf(key) == (Hash(key) as int) % 64
  {
    var hash := Fnv32(key);
    i := (hash as int) % SHARD_NUM;
  }

  class ShardSet<V> {
    const shards: array<map<Key, V>>
    /** The one map that the shards make up. */
    ghost var contents: map<Key, V>

    ghost predicate Valid()
      reads this, shards
    {
      && shards.Length == SHARD_NUM
      && forall k :: AtHome(k)
    }

    /** The key is in its own shard with its value, or nowhere. */
    ghost predicate AtHome(k: Key)
      requires shards.Length == SHARD_NUM
      reads this, shards
    {
      && (k in contents <==> k in shards[ShardOf(k)])
      && (k in contents ==> contents[k] == shards[ShardOf(k)][k])
      && forall i :: 0 <= i < SHARD_NUM && i != ShardOf(k) ==> k !in shards[i]
    }

    constructor ()
      ensures Valid() && contents == map[] && fresh(shards) && shards.Length == 64
    {
      shards := new map<Key, V>[SHARD_NUM](_ => map[]);
      contents := map[];
    }

    method GetByLock(k: Key) returns (r: Option<V>)
      requires Valid()
      ensures r == if k in contents then Some(contents[k]) else None
    {
      assert AtHome(k);
      var i := ShardNum(k);
      r := if k in shards[i] then Some(shards[i][k]) else None;
    }

    method PutByLock(k: Key, v: V)
      requires Valid()
      modifies this`contents, shards
      ensures Valid() && contents == old(contents)[k := v]
    {
      var i := ShardNum(k);
      shards[i] := shards[i][k := v];
      contents := contents[k := v];
      forall x ensures AtHome(x) {
        assert old(AtHome(x));
      }
    }
  }
}
