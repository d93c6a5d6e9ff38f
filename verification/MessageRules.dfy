// What filters select, and what one message does to the router's tables (mavlink/filter.py, mavlink/router.py).

module MessageRules {
  import opened Prelude
  import opened Recency
  import opened MessageRouting
  import opened MessageRouters

  // ---------------------------------------------------------------- filters

  /** A filter that asks for nothing but the predicate. */
  function Anything(accepts: Message -> bool): Filter {
    Filter(None, None, None, None, accepts)
  }

  /** Each criterion narrows what the filter selects, to the messages that have one of the values. */
  lemma CriteriaNarrow(f: Filter, m: Message)
    ensures f == Anything(f.accepts) ==> (Matches(f, m) <==> f.accepts(m))
    ensures f.kinds.Some? ==> (Matches(f, m) <==> Matches(f.(kinds := None), m) && m.kind in f.kinds.value)
    ensures f.systems.Some? ==>
              (Matches(f, m) <==> Matches(f.(systems := None), m) && exists x :: x in f.systems.value && m.system == Some(x))
    ensures f.components.Some? ==>
              (Matches(f, m) <==> Matches(f.(components := None), m) && exists x :: x in f.components.value && m.component == Some(x))
    ensures f.messageIds.Some? ==>
              (Matches(f, m) <==> Matches(f.(messageIds := None), m) && exists x :: x in f.messageIds.value && m.messageId == Some(x))
  {
  }

  // ---------------------------------------------------------------- the loss estimate

  /** A packet that follows its predecessor, repeats it, or comes from before it or far ahead, adds no loss. */
  lemma GapsCounted(previous: nat, current: nat)
    requires previous <= current
    ensures var gap := (current - previous) % 256;
            && (2 <= gap <= 64 ==> DroppedBetween(previous % 256, current % 256) == gap - 1)
            && (gap <= 1 || gap > 64 ==> DroppedBetween(previous % 256, current % 256) == 0)
  {
    SameRemainder(previous, current);
  }

  // ---------------------------------------------------------------- one table

  /** A new key would push out the oldest one. */
  predicate Full<K(==), V>(t: Table<K, V>, k: K, capacity: Option<nat>) {
    k !in t.items && capacity == Some(|t.order|)
  }

  /**
   * Storing puts the key last and keeps the order of the others. Only a new key in a full table pushes one out, the
   * first; every other value stays.
   */
  lemma PutShows<K(!new), V>(t: Table<K, V>, k: K, v: V, capacity: Option<nat>)
    requires TableOk(t, capacity) && capacity != Some(0)
    ensures var after := Put(t, k, v, capacity); var full := Full(t, k, capacity);
            && (full ==> t.order != [])
            && (forall x :: x in after.items <==> x == k || (x in t.items && !(full && x == t.order[0])))
            && (forall x :: x in after.items ==> (if x == k then after.items[x] == v else after.items[x] == t.items[x]))
            && after.order != [] && after.order[|after.order| - 1] == k
            && after.order[..|after.order| - 1] == (if full then t.order[1..] else Remove(t.order, k))
  {
    hide NoDuplicates, Remove;
    if k !in t.items {
      RemoveAbsent(t.order, k);
      if Full(t, k, capacity) {
        FirstOut(t.order);
      }
    }
  }

  // ---------------------------------------------------------------- both tables

  predicate FromSource(k: Key, src: Source) {
    k.system == Some(src.system) && k.component == Some(src.component)
  }

  /** The source heard longest ago, which a message from a new source pushes out of a full source table. */
  function PushedSource(sources: Table<Source, map<string, Message>>, m: Message, capacity: Option<nat>): Option<Source> {
    if SourceOf(m).Some? && sources.order != [] && Full(sources, SourceOf(m).value, capacity) then Some(sources.order[0]) else None
  }

  /** Which source expires, as the router decides it. */
  lemma ExpiredIsPushed(sources: Table<Source, map<string, Message>>, m: Message, capacity: Option<nat>)
    requires TableOk(sources, capacity) && capacity != Some(0)
    ensures ExpiredBy(sources, m, capacity) == PushedSource(sources, m, capacity)
  {
  }

  /**
   * One accepted message becomes the latest of its key. Of the others, exactly those stay that are neither the oldest
   * of a full table nor from a source that is pushed out; they keep their values and their order.
   */
  lemma LatestShows(latest: Table<Key, Envelope>, sources: Table<Source, map<string, Message>>, e: Envelope,
                    stateCapacity: Option<nat>, sourceCapacity: Option<nat>)
    requires TableOk(latest, stateCapacity) && TableOk(sources, sourceCapacity)
    requires stateCapacity != Some(0) && sourceCapacity != Some(0)
    ensures var k := KeyOf(e.message); var pushed := PushedSource(sources, e.message, sourceCapacity);
            var full := Full(latest, k, stateCapacity);
            var after := LatestAfter(Put(latest, k, e, stateCapacity), ExpiredBy(sources, e.message, sourceCapacity));
            && k in after.items && after.items[k] == e
            && (full ==> latest.order != [])
            && (forall x :: x != k ==>
                  (x in after.items <==>
                     x in latest.items && !(full && x == latest.order[0]) && !(pushed.Some? && FromSource(x, pushed.value))))
            && (forall x :: x in after.items && x != k ==> after.items[x] == latest.items[x])
            && after.order == RemoveAll(Put(latest, k, e, stateCapacity).order,
                                        if pushed.Some? then set x | x in latest.items && FromSource(x, pushed.value) else {})
  {
    var k := KeyOf(e.message);
    PutShows(latest, k, e, stateCapacity);
    ExpiredIsPushed(sources, e.message, sourceCapacity);
    hide Put, TableOk, Remove, ExpiredBy, Full;
    var pushed := PushedSource(sources, e.message, sourceCapacity);
    var put := Put(latest, k, e, stateCapacity);
    NothingRemoved(put.order);
    if pushed.Some? {
      PushedIsOther(sources, e.message, sourceCapacity);
      PutKeysKnown(latest, k, e, stateCapacity, pushed.value);
    }
    hide RemoveAll;
  }

  lemma {:induction false} NothingRemoved<K(!new)>(s: seq<K>)
    ensures RemoveAll(s, {}) == s
  {
    if s != [] {
      NothingRemoved(s[..|s| - 1]);
      assert s == s[..|s| - 1] + [s[|s| - 1]];
    }
  }

  lemma PushedIsOther(sources: Table<Source, map<string, Message>>, m: Message, capacity: Option<nat>)
    requires TableOk(sources, capacity) && PushedSource(sources, m, capacity).Some?
    ensures SourceOf(m).Some? && PushedSource(sources, m, capacity).value != SourceOf(m).value
    ensures !FromSource(KeyOf(m), PushedSource(sources, m, capacity).value)
  {
    assert sources.order[0] in sources.order;
  }

  /** The keys of the source among the stored ones, in the order of the table. */
  lemma PutKeysKnown(latest: Table<Key, Envelope>, k: Key, e: Envelope, capacity: Option<nat>, src: Source)
    requires TableOk(latest, capacity) && capacity != Some(0) && !FromSource(k, src)
    ensures var put := Put(latest, k, e, capacity);
            RemoveAll(put.order, KeysOfSource(put, src)) == RemoveAll(put.order, set x | x in latest.items && FromSource(x, src))
  {
    PutShows(latest, k, e, capacity);
    PutOk(latest, k, e, capacity);
    var put := Put(latest, k, e, capacity);
    hide Put, Remove, Full;
    SameRemoved(put.order, KeysOfSource(put, src), set x | x in latest.items && FromSource(x, src));
  }

  lemma {:induction false} SameRemoved<K(!new)>(s: seq<K>, a: set<K>, b: set<K>)
    requires forall x :: x in s ==> (x in a <==> x in b)
    ensures RemoveAll(s, a) == RemoveAll(s, b)
  {
    if s != [] {
      SameRemoved(s[..|s| - 1], a, b);
    }
  }

  /** Of its source, the message becomes the last of its kind; everything else that is remembered stays, but for a source pushed out. */
  lemma SourcesShow(sources: Table<Source, map<string, Message>>, m: Message, capacity: Option<nat>)
    requires TableOk(sources, capacity) && capacity != Some(0) && SourceOf(m).Some?
    ensures var src := SourceOf(m).value; var after := SourcesAfter(sources, src, m, capacity);
            var pushed := PushedSource(sources, m, capacity);
            && src in after.items
            && after.items[src] == (if src in sources.items then sources.items[src][m.kind := m] else map[m.kind := m])
            && (forall x :: x != src ==> (x in after.items <==> x in sources.items && pushed != Some(x)))
            && (forall x :: x in after.items && x != src ==> after.items[x] == sources.items[x])
  {
    var src := SourceOf(m).value;
    PutShows(sources, src, (if src in sources.items then sources.items[src] else map[])[m.kind := m], capacity);
    hide Put, Remove;
  }

  /** What is counted as evicted is what has left the two tables. */
  lemma EvictionsAreLosses(latest: Table<Key, Envelope>, sources: Table<Source, map<string, Message>>, e: Envelope,
                           stateCapacity: Option<nat>, sourceCapacity: Option<nat>)
    requires TableOk(latest, stateCapacity) && TableOk(sources, sourceCapacity)
    requires stateCapacity != Some(0) && sourceCapacity != Some(0)
    ensures var k := KeyOf(e.message); var put := Put(latest, k, e, stateCapacity);
            var expired := ExpiredBy(sources, e.message, sourceCapacity);
            var after := LatestAfter(put, expired);
            PushedOut(latest, k, stateCapacity) + ExpiredCount(put, expired) ==
              |latest.items.Keys + {k} - after.items.Keys| + (if PushedSource(sources, e.message, sourceCapacity).Some? then 1 else 0)
  {
    hide Put, TableOk, Full, PushedOut, ExpiredBy, KeysOfSource;
    var k := KeyOf(e.message);
    var put := Put(latest, k, e, stateCapacity);
    var expired := ExpiredBy(sources, e.message, sourceCapacity);
    ExpiredIsPushed(sources, e.message, sourceCapacity);
    KeysAfterPut(latest, k, e, stateCapacity);
    KeysKnown(put, expired);
    LeftOver(latest.items.Keys + {k}, Oldest(latest, k, stateCapacity),
             if expired.Some? then KeysOfSource(put, expired.value) else {});
  }

  function Oldest(latest: Table<Key, Envelope>, k: Key, capacity: Option<nat>): set<Key> {
    if latest.order != [] && Full(latest, k, capacity) then {latest.order[0]} else {}
  }

  lemma KeysAfterPut(latest: Table<Key, Envelope>, k: Key, e: Envelope, capacity: Option<nat>)
    requires TableOk(latest, capacity) && capacity != Some(0)
    ensures Put(latest, k, e, capacity).items.Keys == latest.items.Keys + {k} - Oldest(latest, k, capacity)
    ensures Oldest(latest, k, capacity) <= latest.items.Keys + {k}
    ensures PushedOut(latest, k, capacity) == |Oldest(latest, k, capacity)|
  {
    PutShows(latest, k, e, capacity);
    PushedOutIs(latest, k, capacity);
    if Full(latest, k, capacity) {
      OldestIsKnown(latest, k, capacity);
    }
    hide Put, TableOk, Full, PushedOut;
  }

  lemma KeysKnown(put: Table<Key, Envelope>, expired: Option<Source>)
    ensures var dropped := if expired.Some? then KeysOfSource(put, expired.value) else {};
            && dropped <= put.items.Keys && LatestAfter(put, expired).items.Keys == put.items.Keys - dropped
            && ExpiredCount(put, expired) == |dropped| + (if expired.Some? then 1 else 0)
  {
  }

  lemma LeftOver(all: set<Key>, gone: set<Key>, dropped: set<Key>)
    requires gone <= all && dropped <= all - gone
    ensures |all - (all - gone - dropped)| == |gone| + |dropped|
  {
    assert all - (all - gone - dropped) == gone + dropped;
    assert gone !! dropped;
  }

  lemma OldestIsKnown(latest: Table<Key, Envelope>, k: Key, capacity: Option<nat>)
    requires TableOk(latest, capacity) && Full(latest, k, capacity) && capacity != Some(0)
    ensures latest.order[0] in latest.items && latest.order[0] != k
  {
    assert latest.order[0] in latest.order;
  }

  lemma PushedOutIs(latest: Table<Key, Envelope>, k: Key, capacity: Option<nat>)
    requires TableOk(latest, capacity) && capacity != Some(0)
    ensures PushedOut(latest, k, capacity) == if Full(latest, k, capacity) then 1 else 0
  {
  }
}
