// Bounded message history per key (mavlink/cache.py).

module MessageCaches {
  import opened Prelude
  import opened Recency

  function KeysOf<T, K>(items: seq<T>, key: T -> K): seq<K> {
    if items == [] then [] else KeysOf(items[..|items| - 1], key) + [key(items[|items| - 1])]
  }

  /** The items under one key, in order. */
  function OfKey<T, K(==)>(items: seq<T>, key: T -> K, k: K): seq<T> {
    if items == [] then []
    else
      var rest := OfKey(items[..|items| - 1], key, k);
      if key(items[|items| - 1]) == k then rest + [items[|items| - 1]] else rest
  }

  lemma OneItemMore<T, K>(items: seq<T>, item: T, key: T -> K, k: K)
    ensures KeysOf(items + [item], key) == KeysOf(items, key) + [key(item)]
    ensures OfKey(items + [item], key, k) == OfKey(items, key, k) + (if key(item) == k then [item] else [])
  {
    assert (items + [item])[..|items|] == items;
    assert OfKey(items, key, k) + [] == OfKey(items, key, k);
  }

  lemma {:induction false} OfKeyTail<T, K>(items: seq<T>, key: T -> K, k: K, from: nat)
    requires from <= |items|
    ensures OfKey(items, key, k) == OfKey(items[..from], key, k) + OfKey(items[from..], key, k)
    decreases |items|
  {
    if from == |items| {
      assert items[..from] == items && items[from..] == [];
    } else {
      var n := |items| - 1;
      OfKeyTail(items[..n], key, k, from);
      assert items[..n][..from] == items[..from];
      assert items[from..] == items[..n][from..] + [items[n]];
      OneItemMore(items[..n][from..], items[n], key, k);
    }
  }

  /** A bucket: the newest items of its key since the key entered. */
  ghost predicate BucketOk<T, K>(bucket: seq<T>, added: seq<T>, since: nat, key: T -> K, k: K, limit: nat) {
    && since <= |added|
    && bucket != []
    && bucket == Newest(OfKey(added[since..], key, k), Some(limit))
  }

  ghost predicate BucketsOk<T, K(!new)>(items: map<K, seq<T>>, added: seq<T>, since: map<K, nat>, key: T -> K, limit: nat) {
    forall k :: k in items ==> k in since && BucketOk(items[k], added, since[k], key, k, limit)
  }

  lemma NewestNext<T>(s: seq<T>, x: T, limit: nat)
    requires limit > 0
    ensures Newest(Newest(s, Some(limit)) + [x], Some(limit)) == Newest(s + [x], Some(limit))
  {
  }

  /** Whatever was added under the key last is the last member of its bucket. */
  lemma BucketEndsWithLatest<T, K>(bucket: seq<T>, added: seq<T>, since: nat, key: T -> K, k: K, limit: nat)
    requires BucketOk(bucket, added, since, key, k, limit) && limit > 0
    ensures OfKey(added, key, k) != []
    ensures bucket[|bucket| - 1] == OfKey(added, key, k)[|OfKey(added, key, k)| - 1]
    ensures |bucket| <= limit
  {
    OfKeyTail(added, key, k, since);
  }

  class MessageCache<T, K(==, !new)> {
    const key: T -> K
    const limit: nat
    const maxKeys: Option<nat>
    var order: seq<K>
    var items: map<K, seq<T>>
    var evictedKeys: nat
    /** Everything added since the cache was last cleared, and where each bucket began. */
    ghost var added: seq<T>
    ghost var since: map<K, nat>

    ghost predicate Valid()
      reads this
    {
      && limit > 0 && maxKeys != Some(0)
      && (forall k :: k in order <==> k in items)
      && order == Newest(Recent(KeysOf(added, key)), maxKeys)
      && BucketsOk(items, added, since, key, limit)
    }

    constructor (key: T -> K, limit: nat, maxKeys: Option<nat>)
      requires limit > 0 && maxKeys != Some(0)
      ensures Valid() && added == [] && this.key == key && this.limit == limit && this.maxKeys == maxKeys
    {
      this.key, this.limit, this.maxKeys := key, limit, maxKeys;
      order, items, evictedKeys, added, since := [], map[], 0, [], map[];
    }

    /** Refuses limits that are not positive. */
    static method Create(key: T -> K, limit: nat, maxKeys: Option<nat>) returns (c: MessageCache?<T, K>)
      ensures c != null <==> limit > 0 && maxKeys != Some(0)
      ensures c != null ==> fresh(c) && c.Valid() && c.added == [] && c.key == key && c.limit == limit && c.maxKeys == maxKeys
    {
      if limit == 0 || maxKeys == Some(0) {
        return null;
      }
      c := new MessageCache(key, limit, maxKeys);
    }

    /** Adds an item under its key; a new key may push out the key used longest ago. */
    method Add(item: T)
      requires Valid()
      modifies this
      ensures Valid() && added == old(added) + [item]
      ensures evictedKeys == old(evictedKeys) +
              (if key(item) !in old(items) && maxKeys.Some? && |old(order)| >= maxKeys.value then 1 else 0)
      ensures key(item) in items
      ensures items[key(item)] == if key(item) in old(items) then Newest(old(items)[key(item)] + [item], Some(limit)) else [item]
      ensures forall k :: k in items && k != key(item) ==> k in old(items) && items[k] == old(items)[k]
    {
      hide Recent, OfKey, KeysOf, BucketsOk, Touch;
      var k := key(item);
      if k in items {
        BucketOf(items, added, since, key, limit, k);
      }
      ghost var entered := if k in items then since[k] else |added|;
      ghost var before := items;
      RecentHas(KeysOf(added, key));
      NewestIsDistinct(KeysOf(added, key), maxKeys);
      OneItemMore(added, item, key, k);
      TouchIsRecent(KeysOf(added, key), k, maxKeys);
      Place(k, item);
      BucketsNext(before, items, added, item, since, entered, key, k, limit);
      since := since[k := entered];
      added := added + [item];
    }

    /** Moves the key to the end of the order, and the item to the end of its bucket. */
    method Place(k: K, item: T)
      requires NoDuplicates(order) && (forall x :: x in order <==> x in items) && maxKeys != Some(0)
      modifies `order, `items, `evictedKeys
      ensures order == Touch(old(order), k, maxKeys)
      ensures evictedKeys == old(evictedKeys) + (if k !in old(items) && maxKeys.Some? && |old(order)| >= maxKeys.value then 1 else 0)
      ensures forall x :: x in order <==> x in items
      ensures k in items
      ensures items[k] == if k in old(items) then Newest(old(items)[k] + [item], Some(limit)) else [item]
      ensures forall other :: other in items && other != k ==> other in old(items) && items[other] == old(items)[other]
    {
      hide NoDuplicates, Remove, Newest, Recent;
      if k !in items {
        if maxKeys.Some? && |order| >= maxKeys.value {
          FirstApart(order);
          evictedKeys := evictedKeys + 1;
          items := items - {order[0]};
          order := order[1..];
        }
        Extended(order, k);
        order := order + [k];
        items := items[k := [item]];
      } else {
        RemoveHas(order, k);
        Extended(Remove(order, k), k);
        order := Remove(order, k) + [k];
        items := items[k := Newest(items[k] + [item], Some(limit))];
      }
    }

    /** The newest item of a key that is still cached. */
    method Latest(k: K) returns (item: Option<T>)
      requires Valid()
      ensures item.Some? <==> k in Newest(Recent(KeysOf(added, key)), maxKeys)
      ensures item.Some? ==> OfKey(added, key, k) != [] && item.value == OfKey(added, key, k)[|OfKey(added, key, k)| - 1]
    {
      if k !in items {
        return None;
      }
      BucketEndsWithLatest(items[k], added, since[k], key, k, limit);
      return Some(items[k][|items[k]| - 1]);
    }

    method All(k: K) returns (bucket: seq<T>)
      requires Valid()
      ensures |bucket| <= limit
      ensures bucket != [] <==> k in Newest(Recent(KeysOf(added, key)), maxKeys)
      ensures bucket != [] ==> bucket == Newest(OfKey(added[since[k]..], key, k), Some(limit))
    {
      if k !in items {
        return [];
      }
      BucketEndsWithLatest(items[k], added, since[k], key, k, limit);
      return items[k];
    }

    method Clear()
      requires Valid()
      modifies this
      ensures Valid() && added == [] && items == map[] && evictedKeys == old(evictedKeys)
    {
      order, items, added, since := [], map[], [], map[];
    }
  }

  lemma NewestIsDistinct<K(!new)>(history: seq<K>, capacity: Option<nat>)
    ensures NoDuplicates(Newest(Recent(history), capacity))
    ensures capacity.Some? ==> |Newest(Recent(history), capacity)| <= capacity.value
  {
    RecentHas(history);
    var r := Recent(history);
    if capacity.Some? && |r| > capacity.value {
      var n := |r| - capacity.value;
      assert r == r[..n] + r[n..];
      Apart(r[..n], r[n..]);
    }
  }

  lemma FirstApart<K(!new)>(order: seq<K>)
    requires NoDuplicates(order) && order != []
    ensures forall x :: x in order[1..] <==> x in order && x != order[0]
  {
    assert order == [order[0]] + order[1..];
    Apart([order[0]], order[1..]);
  }

  lemma BucketOf<T, K(!new)>(items: map<K, seq<T>>, added: seq<T>, since: map<K, nat>, key: T -> K, limit: nat, k: K)
    requires BucketsOk(items, added, since, key, limit) && k in items
    ensures k in since && BucketOk(items[k], added, since[k], key, k, limit)
  {
  }

  lemma BucketsNext<T, K(!new)>(before: map<K, seq<T>>, after: map<K, seq<T>>, added: seq<T>, item: T,
                                since: map<K, nat>, entered: nat, key: T -> K, k: K, limit: nat)
    requires BucketsOk(before, added, since, key, limit) && limit > 0 && key(item) == k && k in after
    requires if k in before then k in since && entered == since[k] && after[k] == Newest(before[k] + [item], Some(limit))
             else entered == |added| && after[k] == [item]
    requires forall other :: other in after && other != k ==> other in before && after[other] == before[other]
    ensures BucketsOk(after, added + [item], since[k := entered], key, limit)
  {
    hide BucketOk, Newest;
    forall x | x in after ensures x in since[k := entered] && BucketOk(after[x], added + [item], since[k := entered][x], key, x, limit) {
      if x != k {
        BucketStays(after[x], added, item, since[x], key, x, limit);
      } else if k in before {
        BucketGrows(before[k], added, item, since[k], key, k, limit);
      } else {
        BucketStarts(added, item, key, k, limit);
      }
    }
  }

  lemma BucketStarts<T, K>(added: seq<T>, item: T, key: T -> K, k: K, limit: nat)
    requires key(item) == k && limit > 0
    ensures BucketOk([item], added + [item], |added|, key, k, limit)
  {
    assert (added + [item])[|added|..] == [] + [item];
    OneItemMore([], item, key, k);
  }

  lemma BucketGrows<T, K>(bucket: seq<T>, added: seq<T>, item: T, since: nat, key: T -> K, k: K, limit: nat)
    requires BucketOk(bucket, added, since, key, k, limit) && key(item) == k && limit > 0
    ensures BucketOk(Newest(bucket + [item], Some(limit)), added + [item], since, key, k, limit)
  {
    assert (added + [item])[since..] == added[since..] + [item];
    OneItemMore(added[since..], item, key, k);
    NewestNext(OfKey(added[since..], key, k), item, limit);
  }

  lemma BucketStays<T, K>(bucket: seq<T>, added: seq<T>, item: T, since: nat, key: T -> K, k: K, limit: nat)
    requires BucketOk(bucket, added, since, key, k, limit) && key(item) != k
    ensures BucketOk(bucket, added + [item], since, key, k, limit)
  {
    assert (added + [item])[since..] == added[since..] + [item];
    OneItemMore(added[since..], item, key, k);
    assert OfKey(added[since..], key, k) + [] == OfKey(added[since..], key, k);
  }
}
