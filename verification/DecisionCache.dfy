// The bounded cache of routing decisions in front of the resource index: a
// map, and a ring of its keys in order of insertion.
module DecisionCache {
  import opened Prelude
  import R = ResourceIndex

  const CACHE_SIZE := 4096

  datatype Key = Key(ip: uint32, port: int, protocol: string)

  // The last n elements of a history.
  function Latest(history: seq<Key>, n: nat): seq<Key> {
    if |history| <= n then history else history[|history| - n..]
  }

  class Cache {
    var values: map<Key, bool>
    var keys: seq<Key>
    var next: nat
    ghost var inserted: seq<Key>     // every key ever inserted, in order

    // The ring read from the oldest key to the newest.
    ghost function Ring(): seq<Key>
      reads this
      requires next <= |keys|
    {
      RingFrom(keys, next)
    }

    ghost predicate Valid()
      reads this
    {
      && |keys| <= CACHE_SIZE
      && (if |keys| < CACHE_SIZE then next == 0 else next < CACHE_SIZE)
      && NoDuplicates(keys)
      && values.Keys == Elements(keys)
      && Ring() == Latest(inserted, CACHE_SIZE)
    }

    // Every cached value is the given function's answer for its key.
    ghost predicate Agrees(answer: Key -> bool)
      reads this
    {
      forall k :: k in values ==> values[k] == answer(k)
    }

    constructor ()
      ensures Valid() && values == map[] && inserted == []
    {
      values, keys, next, inserted := map[], [], 0, [];
    }

    method Get(key: Key) returns (value: bool, ok: bool)
      ensures ok <==> key in values
      ensures ok ==> value == values[key]
    {
      ok := key in values;
      value := ok && values[key];
    }

    // A known key keeps its place. A new key goes to the back of the ring; when the ring is full
    // it takes the place of the oldest key, which is forgotten.
    method Set(key: Key, value: bool)
      requires Valid()
      modifies this
      ensures Valid()
      ensures key in old(values) ==> Ring() == old(Ring()) && values == old(values)[key := value]
      ensures key !in old(values) ==> inserted == old(inserted) + [key]
      ensures key !in old(values) && |old(Ring())| < CACHE_SIZE ==>
                Ring() == old(Ring()) + [key] && values == old(values)[key := value]
      ensures key !in old(values) && |old(Ring())| == CACHE_SIZE ==>
                Ring() == old(Ring())[1..] + [key] && values == (old(values) - {old(Ring())[0]})[key := value]
    {
      hide RingFrom, Latest, Elements, NoDuplicates;
      if key in values {
        values := values[key := value];
        return;
      }
      RingAndWindow(keys, next, inserted);
      WindowMoves(inserted, key, CACHE_SIZE);
      InElements(keys, key);
      inserted := inserted + [key];
      if |keys| < CACHE_SIZE {
        Append(key);
      } else {
        values := values - {keys[next]};
        Replace(key);
      }
      values := values[key := value];
    }

    method Replace(key: Key)
      requires next < |keys| == CACHE_SIZE && key !in keys && NoDuplicates(keys)
      modifies this`keys, this`next
      ensures next < |keys| == CACHE_SIZE && NoDuplicates(keys)
      ensures RingFrom(keys, next) == RingFrom(old(keys), old(next))[1..] + [key]
      ensures Elements(keys) == Elements(old(keys)) - {old(keys)[old(next)]} + {key}
    {
      SlotReplaced(keys, next, key);
      RingReplaced(keys, next, key);
      keys := keys[next := key];
      next := (next + 1) % CACHE_SIZE;
    }

    method Append(key: Key)
      requires next == 0 && key !in keys && NoDuplicates(keys)
      modifies this`keys
      ensures keys == old(keys) + [key] && NoDuplicates(keys)
      ensures RingFrom(keys, 0) == RingFrom(old(keys), 0) + [key]
      ensures Elements(keys) == Elements(old(keys)) + {key}
    {
      keys := keys + [key];
    }
  }

  // The ring of keys with its cursor, read from the oldest key to the newest.
  function RingFrom(keys: seq<Key>, next: nat): seq<Key>
    requires next <= |keys|
  {
    keys[next..] + keys[..next]
  }

  lemma InElements(keys: seq<Key>, key: Key)
    ensures key in Elements(keys) <==> key in keys
  {
  }

  lemma RingAndWindow(keys: seq<Key>, next: nat, history: seq<Key>)
    requires next <= |keys|
    ensures |RingFrom(keys, next)| == |keys|
    ensures next < |keys| ==> RingFrom(keys, next)[0] == keys[next]
    ensures |Latest(history, CACHE_SIZE)| == if |history| < CACHE_SIZE then |history| else CACHE_SIZE
  {
  }

  // Replacing the slot under the cursor and moving the cursor on drops the oldest and appends the newest.
  lemma RingReplaced(keys: seq<Key>, next: nat, key: Key)
    requires next < |keys|
    ensures RingFrom(keys[next := key], (next + 1) % |keys|) == RingFrom(keys, next)[1..] + [key]
  {
    var keys' := keys[next := key];
    if next + 1 < |keys| {
      assert (next + 1) % |keys| == next + 1;
      assert keys'[next + 1..] == keys[next + 1..];
      assert keys'[..next + 1] == keys[..next] + [key];
    } else {
      assert (next + 1) % |keys| == 0;
      assert keys' == keys[..next] + [key];
    }
  }

  lemma SlotReplaced(keys: seq<Key>, next: nat, key: Key)
    requires next < |keys| && NoDuplicates(keys) && key !in keys
    ensures NoDuplicates(keys[next := key])
    ensures Elements(keys[next := key]) == Elements(keys) - {keys[next]} + {key}
  {
    var keys' := keys[next := key];
    forall k | k in keys && k != keys[next]
      ensures k in keys'
    {
      var i :| 0 <= i < |keys| && keys[i] == k;
      assert keys'[i] == k;
    }
    assert keys'[next] == key;
  }

  // The latest entries of a longer history, once the window is full.
  lemma WindowMoves(history: seq<Key>, key: Key, n: nat)
    requires n > 0
    ensures Latest(history + [key], n) ==
            if |history| < n then Latest(history, n) + [key] else Latest(history, n)[1..] + [key]
  {
  }

  // The stack that consults the cache before the index of its resources.
  class Stack {
    const resources: seq<R.IPResource>
    const index: R.Index
    const cache: Cache

    ghost function Answer(): Key -> bool {
      (k: Key) => R.Lookup(resources, R.V4(k.ip), k.protocol, k.port, false, R.Anything).Some?
    }

    ghost predicate Valid()
      reads cache
    {
      R.Indexes(index, resources) && cache.Valid() && cache.Agrees(Answer())
    }

    constructor (resources: seq<R.IPResource>)
      ensures Valid() && this.resources == resources && fresh(cache)
    {
      this.resources := resources;
      var built := R.New(resources);
      var empty := new Cache();
      index, cache := built, empty;
    }

    // Whatever was asked before, the answer is the index's own.
    method MatchesStaticResource(destination: R.Address, protocol: string, port: int) returns (decision: bool)
      requires Valid()
      modifies cache
      ensures Valid()
      ensures decision == R.Lookup(resources, destination, protocol, port, false, R.Anything).Some?
    {
      if destination.Other? {
        return false;
      }
      var key := Key(destination.value, port, protocol);
      var value, ok := cache.Get(key);
      if ok {
        return value;
      }
      var found := R.Match(index, resources, destination, protocol, port, false, R.Anything);
      decision := found.Some?;
      cache.Set(key, decision);
    }
  }
}
