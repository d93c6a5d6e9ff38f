// The router's latest-message table, its per-source table, and the loss estimate
// (mavlink/router.py, mavlink/filter.py).

module MessageRouting {
  import opened Prelude
  import opened Recency

  datatype Message = Message(
    id: nat,
    kind: string,
    system: Option<nat>,
    component: Option<nat>,
    messageId: Option<nat>,
    number: Option<nat>)

  /** A received message and its position in the stream. */
  datatype Envelope = Envelope(sequence: nat, message: Message)

  datatype Key = Key(system: Option<nat>, component: Option<nat>, kind: string)

  datatype Source = Source(system: nat, component: nat)

  function KeyOf(m: Message): Key {
    Key(m.system, m.component, m.kind)
  }

  function SourceOf(m: Message): Option<Source> {
    if m.system.Some? && m.component.Some? then Some(Source(m.system.value, m.component.value)) else None
  }

  // ---------------------------------------------------------------- filters

  /** Metadata filter; None stands for any value. */
  datatype Filter = Filter(
    kinds: Option<set<string>>,
    systems: Option<set<nat>>,
    components: Option<set<nat>>,
    messageIds: Option<set<nat>>,
    accepts: Message -> bool)

  predicate Matches(f: Filter, m: Message) {
    && (f.kinds.Some? ==> m.kind in f.kinds.value)
    && (f.systems.Some? ==> m.system.Some? && m.system.value in f.systems.value)
    && (f.components.Some? ==> m.component.Some? && m.component.value in f.components.value)
    && (f.messageIds.Some? ==> m.messageId.Some? && m.messageId.value in f.messageIds.value)
    && f.accepts(m)
  }

  /** The filter looks at type and source alone. */
  ghost predicate KeyOnly(f: Filter) {
    f.messageIds.None? && forall m :: f.accepts(m)
  }

  /** Among the messages that can occur, the filter never tells apart two of one key. */
  ghost predicate KeyDecides(f: Filter, possible: iset<Message>) {
    forall a, b :: a in possible && b in possible && KeyOf(a) == KeyOf(b) ==> Matches(f, a) == Matches(f, b)
  }

  // ---------------------------------------------------------------- an ordered dictionary

  datatype Table<K, V> = Table(order: seq<K>, items: map<K, V>)

  ghost predicate TableOk<K(!new), V>(t: Table<K, V>, capacity: Option<nat>) {
    && NoDuplicates(t.order)
    && (forall k {:trigger k in t.order} {:trigger k in t.items} :: k in t.order <==> k in t.items)
    && (capacity.Some? ==> |t.order| <= capacity.value)
  }

  /** Stores a value at the end; a new key may push out the oldest. */
  function Put<K(==, !new), V>(t: Table<K, V>, k: K, v: V, capacity: Option<nat>): Table<K, V> {
    if k in t.items then Table(Remove(t.order, k) + [k], t.items[k := v])
    else if capacity.Some? && |t.order| >= capacity.value && t.order != [] then
      Table(t.order[1..] + [k], (t.items - {t.order[0]})[k := v])
    else Table(t.order + [k], t.items[k := v])
  }

  function Drop<K(==, !new), V>(t: Table<K, V>, ks: set<K>): Table<K, V> {
    Table(RemoveAll(t.order, ks), t.items - ks)
  }

  function RemoveAll<K(==, !new)>(s: seq<K>, ks: set<K>): seq<K> {
    if s == [] then []
    else
      var rest := RemoveAll(s[..|s| - 1], ks);
      if s[|s| - 1] in ks then rest else rest + [s[|s| - 1]]
  }

  lemma {:induction false} RemoveAllHas<K(!new)>(s: seq<K>, ks: set<K>)
    ensures forall x {:trigger x in RemoveAll(s, ks)} {:trigger x in s} :: x in RemoveAll(s, ks) <==> x in s && x !in ks
    ensures NoDuplicates(s) ==> NoDuplicates(RemoveAll(s, ks))
    ensures |RemoveAll(s, ks)| <= |s|
  {
    if s != [] {
      hide NoDuplicates;
      var n := |s| - 1;
      RemoveAllHas(s[..n], ks);
      LastApart(s);
      if NoDuplicates(s) {
        DistinctMore(RemoveAll(s[..n], ks), s[n]);
      }
    }
  }

  lemma PutOk<K(!new), V>(t: Table<K, V>, k: K, v: V, capacity: Option<nat>)
    requires TableOk(t, capacity) && capacity != Some(0)
    ensures TableOk(Put(t, k, v, capacity), capacity)
    ensures Put(t, k, v, capacity).order == Touch(t.order, k, capacity)
    ensures k in Put(t, k, v, capacity).items && Put(t, k, v, capacity).items[k] == v
    ensures forall x :: x in Put(t, k, v, capacity).items && x != k ==> x in t.items && Put(t, k, v, capacity).items[x] == t.items[x]
  {
    hide NoDuplicates, Remove;
    TouchHas(t.order, k, capacity);
    RemoveHas(t.order, k);
    if k in t.items {
      Extended(Remove(t.order, k), k);
    } else if capacity.Some? && |t.order| >= capacity.value && t.order != [] {
      FirstOut(t.order);
      Extended(t.order[1..], k);
    } else {
      Extended(t.order, k);
    }
  }

  lemma FirstOut<K(!new)>(order: seq<K>)
    requires NoDuplicates(order) && order != []
    ensures forall x {:trigger x in order} {:trigger x in order[1..]} :: x in order[1..] <==> x in order && x != order[0]
  {
    assert order == [order[0]] + order[1..];
    Apart([order[0]], order[1..]);
  }

  lemma DropOk<K(!new), V>(t: Table<K, V>, ks: set<K>, capacity: Option<nat>)
    requires TableOk(t, capacity)
    ensures TableOk(Drop(t, ks), capacity)
  {
    hide NoDuplicates, RemoveAll;
    RemoveAllHas(t.order, ks);
  }

  // ---------------------------------------------------------------- what the tables keep

  /** Entries stand under their own key, in strictly increasing stream order. */
  ghost predicate LatestOk(latest: Table<Key, Envelope>, capacity: Option<nat>, sequence: nat) {
    && TableOk(latest, capacity)
    && (forall k :: k in latest.items ==> KeyOf(latest.items[k].message) == k && latest.items[k].sequence <= sequence)
    && Ascending(latest)
  }

  ghost predicate Ascending(latest: Table<Key, Envelope>) {
    forall i, j :: 0 <= i < j < |latest.order| && latest.order[i] in latest.items && latest.order[j] in latest.items ==>
      latest.items[latest.order[i]].sequence < latest.items[latest.order[j]].sequence
  }

  /** Every latest message with a known source is also the one its source is remembered for. */
  ghost predicate Linked(latest: Table<Key, Envelope>, sources: map<Source, map<string, Message>>) {
    forall k :: k in latest.items && SourceOf(latest.items[k].message).Some? ==>
      var src := SourceOf(latest.items[k].message).value;
      src in sources && k.kind in sources[src] && sources[src][k.kind] == latest.items[k].message
  }

  /** Every entry but `e`'s own is linked. */
  ghost predicate LinkedBut(latest: Table<Key, Envelope>, sources: map<Source, map<string, Message>>, e: Key) {
    forall k :: k in latest.items && k != e && SourceOf(latest.items[k].message).Some? ==>
      var src := SourceOf(latest.items[k].message).value;
      src in sources && k.kind in sources[src] && sources[src][k.kind] == latest.items[k].message
  }

  lemma {:induction false} SubOrder<K(!new)>(s: seq<K>, ks: set<K>, i: nat, j: nat) returns (a: nat, b: nat)
    requires i < j < |RemoveAll(s, ks)|
    ensures a < b < |s| && s[a] == RemoveAll(s, ks)[i] && s[b] == RemoveAll(s, ks)[j]
    decreases |s|
  {
    var n := |s| - 1;
    var rest := RemoveAll(s[..n], ks);
    if j < |rest| {
      a, b := SubOrder(s[..n], ks, i, j);
    } else {
      a := IndexKept(s[..n], ks, i);
      b := n;
    }
  }

  lemma {:induction false} IndexKept<K(!new)>(s: seq<K>, ks: set<K>, i: nat) returns (a: nat)
    requires i < |RemoveAll(s, ks)|
    ensures a < |s| && s[a] == RemoveAll(s, ks)[i]
    decreases |s|
  {
    var n := |s| - 1;
    if i < |RemoveAll(s[..n], ks)| {
      a := IndexKept(s[..n], ks, i);
    } else {
      a := n;
    }
  }

  lemma DropKeepsAscending(latest: Table<Key, Envelope>, ks: set<Key>)
    requires Ascending(latest)
    ensures Ascending(Drop(latest, ks))
  {
    var d := Drop(latest, ks);
    forall i, j | 0 <= i < j < |d.order| && d.order[i] in d.items && d.order[j] in d.items
      ensures d.items[d.order[i]].sequence < d.items[d.order[j]].sequence
    {
      var a, b := SubOrder(latest.order, ks, i, j);
    }
  }

  /** Removing one key is removing a set of one. */
  lemma {:induction false} RemoveIsRemoveAll<K(!new)>(s: seq<K>, k: K)
    ensures Remove(s, k) == RemoveAll(s, {k})
  {
    if s != [] {
      RemoveIsRemoveAll(s[..|s| - 1], k);
    }
  }

  lemma AppendKeepsAscending(latest: Table<Key, Envelope>, k: Key, e: Envelope)
    requires Ascending(latest) && k !in latest.order
    requires forall x :: x in latest.items ==> latest.items[x].sequence < e.sequence
    ensures Ascending(Table(latest.order + [k], latest.items[k := e]))
  {
  }

  lemma FirstOutAscending(latest: Table<Key, Envelope>)
    requires Ascending(latest) && latest.order != []
    ensures Ascending(Table(latest.order[1..], latest.items - {latest.order[0]}))
  {
  }

  lemma PutKeepsAscending(latest: Table<Key, Envelope>, k: Key, e: Envelope, capacity: Option<nat>)
    requires TableOk(latest, capacity) && Ascending(latest)
    requires forall x :: x in latest.items ==> latest.items[x].sequence < e.sequence
    ensures Ascending(Put(latest, k, e, capacity))
  {
    hide NoDuplicates, Remove, RemoveAll, Ascending;
    if k in latest.items {
      var d := Drop(latest, {k});
      RemoveIsRemoveAll(latest.order, k);
      DropKeepsAscending(latest, {k});
      RemoveAllHas(latest.order, {k});
      AppendKeepsAscending(d, k, e);
      assert d.items[k := e] == latest.items[k := e];
    } else if capacity.Some? && |latest.order| >= capacity.value && latest.order != [] {
      FirstOut(latest.order);
      FirstOutAscending(latest);
      AppendKeepsAscending(Table(latest.order[1..], latest.items - {latest.order[0]}), k, e);
    } else {
      AppendKeepsAscending(latest, k, e);
    }
  }

  lemma PutKeepsLatest(latest: Table<Key, Envelope>, e: Envelope, capacity: Option<nat>, sequence: nat)
    requires LatestOk(latest, capacity, sequence) && capacity != Some(0) && e.sequence == sequence + 1
    ensures LatestOk(Put(latest, KeyOf(e.message), e, capacity), capacity, sequence + 1)
  {
    hide TableOk, Ascending, Put;
    PutOk(latest, KeyOf(e.message), e, capacity);
    PutKeepsAscending(latest, KeyOf(e.message), e, capacity);
  }

  // ---------------------------------------------------------------- the per-source table

  /** The latest keys of one source. */
  function KeysOfSource(latest: Table<Key, Envelope>, src: Source): set<Key> {
    set k | k in latest.items && k.system == Some(src.system) && k.component == Some(src.component)
  }

  /** The source that a new source pushes out, if the table is full. */
  function Expired(sources: Table<Source, map<string, Message>>, src: Source, capacity: Option<nat>): Option<Source> {
    if src !in sources.items && capacity.Some? && |sources.order| >= capacity.value && sources.order != [] then
      Some(sources.order[0])
    else None
  }

  /** The latest table once the entries of an expired source are gone. */
  function LatestAfter(latest: Table<Key, Envelope>, expired: Option<Source>): Table<Key, Envelope> {
    if expired.Some? then Drop(latest, KeysOfSource(latest, expired.value)) else latest
  }

  function SourcesAfter(sources: Table<Source, map<string, Message>>, src: Source, m: Message, capacity: Option<nat>):
    Table<Source, map<string, Message>>
  {
    Put(sources, src, (if src in sources.items then sources.items[src] else map[])[m.kind := m], capacity)
  }

  lemma LinkedAfterPut(latest: Table<Key, Envelope>, sources: map<Source, map<string, Message>>, e: Envelope, capacity: Option<nat>)
    requires TableOk(latest, capacity) && capacity != Some(0) && Linked(latest, sources)
    ensures LinkedBut(Put(latest, KeyOf(e.message), e, capacity), sources, KeyOf(e.message))
  {
    PutOk(latest, KeyOf(e.message), e, capacity);
    hide Put, TableOk;
  }

  lemma LinkedAfterSource(latest: Table<Key, Envelope>, sources: Table<Source, map<string, Message>>, m: Message, capacity: Option<nat>)
    requires TableOk(sources, capacity) && capacity != Some(0) && SourceOf(m).Some?
    requires LinkedBut(latest, sources.items, KeyOf(m))
    requires forall k :: k in latest.items ==> KeyOf(latest.items[k].message) == k
    requires KeyOf(m) in latest.items && latest.items[KeyOf(m)].message == m
    ensures var src := SourceOf(m).value;
            Linked(LatestAfter(latest, Expired(sources, src, capacity)), SourcesAfter(sources, src, m, capacity).items)
    ensures KeyOf(m) in LatestAfter(latest, Expired(sources, SourceOf(m).value, capacity)).items
  {
    var src := SourceOf(m).value;
    var state := (if src in sources.items then sources.items[src] else map[])[m.kind := m];
    PutOk(sources, src, state, capacity);
    KeptSources(sources, src, state, capacity);
    hide Put, TableOk, RemoveAll;
    var expired := Expired(sources, src, capacity);
    var l, after := LatestAfter(latest, expired), SourcesAfter(sources, src, m, capacity).items;
    forall k | k in l.items && SourceOf(l.items[k].message).Some?
      ensures var s := SourceOf(l.items[k].message).value;
              s in after && k.kind in after[s] && after[s][k.kind] == l.items[k].message
    {
      var s := SourceOf(l.items[k].message).value;
      if k != KeyOf(m) {
        assert s in sources.items;
        if s == src {
          assert k.kind != m.kind;
        }
      }
    }
  }

  /** Only the expired source leaves the source table. */
  lemma KeptSources(sources: Table<Source, map<string, Message>>, src: Source, state: map<string, Message>, capacity: Option<nat>)
    requires TableOk(sources, capacity) && capacity != Some(0)
    ensures forall s :: s in sources.items && Some(s) != Expired(sources, src, capacity) ==> s in Put(sources, src, state, capacity).items
  {
  }

  // ---------------------------------------------------------------- the loss estimate

  /** Packets are numbered modulo 256. A backward jump, or one over 64, counts as no loss. */
  function DroppedBetween(previous: nat, current: nat): nat {
    var delta := (current as int - previous as int) % 256;
    if 1 < delta <= 64 then delta - 1 else 0
  }

  /** The estimate is the number lost exactly when at most 63 were lost; otherwise it is too low. */
  lemma DroppedIsExact(previous: nat, current: nat)
    requires previous < current
    ensures DroppedBetween(previous % 256, current % 256) <= 63
    ensures DroppedBetween(previous % 256, current % 256) <= current - previous - 1
    ensures DroppedBetween(previous % 256, current % 256) == current - previous - 1 <==> current - previous <= 64
  {
    SameRemainder(previous, current);
  }

  lemma SameRemainder(a: nat, b: nat)
    ensures (b % 256 - a % 256) % 256 == (b - a) % 256
  {
    var d := b / 256 - a / 256;
    assert b - a == (b % 256 - a % 256) + 256 * d;
  }

  /** What a router without source limit has recorded: the last number of each source, and the loss. */
  datatype Tally = Tally(numbers: map<Source, nat>, lost: nat)

  function Recorded(t: Tally, m: Message): Tally {
    if SourceOf(m).None? || m.number.None? then t
    else
      var src, number := SourceOf(m).value, m.number.value % 256;
      Tally(t.numbers[src := number], t.lost + if src in t.numbers then DroppedBetween(t.numbers[src], number) else 0)
  }

  function TallyOf(accepted: seq<Envelope>): Tally {
    if accepted == [] then Tally(map[], 0)
    else Recorded(TallyOf(accepted[..|accepted| - 1]), accepted[|accepted| - 1].message)
  }

  /** What a source really sent between the first and the last packet received from it. */
  datatype Stretch = Stretch(first: nat, last: nat, count: nat)

  ghost function Noted(book: map<Source, Stretch>, src: Source, index: nat): map<Source, Stretch> {
    if src in book then book[src := Stretch(book[src].first, index, book[src].count + 1)]
    else book[src := Stretch(index, index, 1)]
  }

  /** `indices` gives the true packet numbers, not reduced modulo 256. */
  ghost function BookOf(accepted: seq<Envelope>, indices: seq<nat>): map<Source, Stretch>
    requires |indices| == |accepted|
  {
    if accepted == [] then map[]
    else
      var n := |accepted| - 1;
      var book := BookOf(accepted[..n], indices[..n]);
      var m := accepted[n].message;
      if SourceOf(m).None? || m.number.None? then book else Noted(book, SourceOf(m).value, indices[n])
  }

  /** Packet numbers are the true ones modulo 256; consecutive packets of a source lost at most 63 between them. */
  ghost predicate SmallGaps(accepted: seq<Envelope>, indices: seq<nat>) {
    && |indices| == |accepted|
    && forall n :: 0 <= n < |accepted| && SourceOf(accepted[n].message).Some? && accepted[n].message.number.Some? ==>
         GapOk(BookOf(accepted[..n], indices[..n]), accepted[n].message, indices[n])
  }

  ghost predicate GapOk(book: map<Source, Stretch>, m: Message, index: nat)
    requires SourceOf(m).Some? && m.number.Some?
  {
    && m.number.value % 256 == index % 256
    && (SourceOf(m).value in book ==> 1 <= index - book[SourceOf(m).value].last <= 64)
  }

  /** Packets sent but not received, over all sources. */
  ghost function Missing(book: map<Source, Stretch>): int {
    if book == map[] then 0
    else
      var src :| src in book;
      (book[src].last - book[src].first + 1 - book[src].count) + Missing(book - {src})
  }

  lemma {:induction false} MissingWithout(book: map<Source, Stretch>, src: Source)
    requires src in book
    ensures Missing(book) == (book[src].last - book[src].first + 1 - book[src].count) + Missing(book - {src})
    decreases |book|
  {
    var x :| x in book && Missing(book) == (book[x].last - book[x].first + 1 - book[x].count) + Missing(book - {x});
    if x != src {
      MissingWithout(book - {x}, src);
      MissingWithout(book - {src}, x);
      assert book - {x} - {src} == book - {src} - {x};
    }
  }

  lemma MissingNoted(book: map<Source, Stretch>, src: Source, index: nat)
    ensures Missing(Noted(book, src, index)) == Missing(book) + (if src in book then index - book[src].last - 1 else 0)
  {
    hide Missing;
    var noted := Noted(book, src, index);
    MissingWithout(noted, src);
    assert noted - {src} == book - {src};
    if src in book {
      MissingWithout(book, src);
    } else {
      assert book - {src} == book;
    }
  }

  /** The tally knows the last number of every source in the book. */
  ghost predicate InStep(t: Tally, book: map<Source, Stretch>) {
    && t.numbers.Keys == book.Keys
    && (forall src :: src in book ==> t.numbers[src] == book[src].last % 256)
    && t.lost == Missing(book)
  }

  lemma RecordedInStep(t: Tally, book: map<Source, Stretch>, m: Message, index: nat)
    requires InStep(t, book) && SourceOf(m).Some? && m.number.Some? && GapOk(book, m, index)
    ensures InStep(Recorded(t, m), Noted(book, SourceOf(m).value, index))
  {
    hide Missing, DroppedBetween;
    var src := SourceOf(m).value;
    MissingNoted(book, src, index);
    if src in book {
      DroppedIsExact(book[src].last, index);
    }
  }

  /**
   * The running estimate telescopes: over any interleaving of sources it is the number of packets
   * really lost between the first and the last packet received from each.
   */
  lemma {:induction false} EstimateIsTrueLoss(accepted: seq<Envelope>, indices: seq<nat>)
    requires SmallGaps(accepted, indices)
    ensures InStep(TallyOf(accepted), BookOf(accepted, indices))
    ensures TallyOf(accepted).lost == Missing(BookOf(accepted, indices))
    decreases |accepted|
  {
    if accepted != [] {
      var n := |accepted| - 1;
      assert SmallGaps(accepted[..n], indices[..n]) by {
        forall k | 0 <= k < n && SourceOf(accepted[..n][k].message).Some? && accepted[..n][k].message.number.Some?
          ensures GapOk(BookOf(accepted[..n][..k], indices[..n][..k]), accepted[..n][k].message, indices[..n][k])
        {
          assert accepted[..n][..k] == accepted[..k] && indices[..n][..k] == indices[..k];
        }
      }
      EstimateIsTrueLoss(accepted[..n], indices[..n]);
      var m := accepted[n].message;
      if SourceOf(m).Some? && m.number.Some? {
        assert GapOk(BookOf(accepted[..n], indices[..n]), m, indices[n]);
        RecordedInStep(TallyOf(accepted[..n]), BookOf(accepted[..n], indices[..n]), m, indices[n]);
      }
    }
  }
}
