// The router object: receiving, and the lookup of the latest message (mavlink/router.py).

module MessageRouters {
  import opened Prelude
  import opened Recency
  import opened MessageRouting

  // ---------------------------------------------------------------- the lookup

  /** The last entry, in stream order, that matches. */
  function BestMatch(latest: Table<Key, Envelope>, order: seq<Key>, f: Filter): Option<Envelope> {
    if order == [] then None
    else
      var k := order[|order| - 1];
      if k in latest.items && Matches(f, latest.items[k].message) then Some(latest.items[k])
      else BestMatch(latest, order[..|order| - 1], f)
  }

  /** The one key a filter with a single type, system and component can match. */
  function SingleKey(f: Filter): Option<Key> {
    if f.kinds.Some? && f.systems.Some? && f.components.Some?
       && |f.kinds.value| == 1 && |f.systems.value| == 1 && |f.components.value| == 1
    then Some(Key(Some(Only(f.systems.value)), Some(Only(f.components.value)), Only(f.kinds.value)))
    else None
  }

  lemma SingletonHas<T>(s: set<T>, x: T, y: T)
    requires |s| == 1 && x in s && y in s
    ensures x == y
  {
    assert |s - {x}| == 0;
  }

  function Only<T(!new)>(s: set<T>): (x: T)
    requires |s| == 1
    ensures s == {x}
  {
    OneMember(s);
    var x :| x in s && forall y :: y in s ==> y == x;
    assert s == {x};
    x
  }

  lemma OneMember<T(!new)>(s: set<T>)
    requires |s| == 1
    ensures exists x :: x in s && forall y :: y in s ==> y == x
  {
    assert s != {};
    var x :| x in s;
    forall y | y in s ensures y == x {
      SingletonHas(s, x, y);
    }
  }

  lemma SingleKeyMatches(f: Filter, m: Message)
    requires SingleKey(f).Some? && Matches(f, m)
    ensures KeyOf(m) == SingleKey(f).value
  {
  }

  /** The best match is the matching entry with the highest sequence, if any entry matches. */
  lemma {:induction false} BestMatchIsNewest(latest: Table<Key, Envelope>, f: Filter, n: nat)
    requires Ascending(latest) && n <= |latest.order|
    ensures var best := BestMatch(latest, latest.order[..n], f);
            && (best.Some? ==>
                  && Matches(f, best.value.message)
                  && exists i :: 0 <= i < n && latest.order[i] in latest.items && latest.items[latest.order[i]] == best.value)
            && (forall i :: 0 <= i < n && latest.order[i] in latest.items && Matches(f, latest.items[latest.order[i]].message) ==>
                  best.Some? && latest.items[latest.order[i]].sequence <= best.value.sequence)
  {
    hide Matches;
    if n > 0 {
      BestMatchIsNewest(latest, f, n - 1);
      assert latest.order[..n][..n - 1] == latest.order[..n - 1];
    }
  }

  /** When only one key can match, looking it up gives the same as scanning everything. */
  lemma {:induction false} SingleKeySuffices(latest: Table<Key, Envelope>, f: Filter, n: nat)
    requires SingleKey(f).Some? && n <= |latest.order|
    requires forall k :: k in latest.items ==> KeyOf(latest.items[k].message) == k
    ensures var k := SingleKey(f).value;
            BestMatch(latest, latest.order[..n], f) ==
            if k in latest.order[..n] && k in latest.items && Matches(f, latest.items[k].message) then Some(latest.items[k]) else None
  {
    hide Matches, SingleKey;
    if n > 0 {
      SingleKeySuffices(latest, f, n - 1);
      assert latest.order[..n][..n - 1] == latest.order[..n - 1];
      assert latest.order[..n] == latest.order[..n - 1] + [latest.order[n - 1]];
      var k := latest.order[n - 1];
      if k in latest.items && Matches(f, latest.items[k].message) {
        SingleKeyMatches(f, latest.items[k].message);
      }
    }
  }

  // ---------------------------------------------------------------- accepted messages

  function Keys(accepted: seq<Envelope>): seq<Key> {
    if accepted == [] then [] else Keys(accepted[..|accepted| - 1]) + [KeyOf(accepted[|accepted| - 1].message)]
  }

  /** The known sources of the accepted messages, in order. */
  function Sources(accepted: seq<Envelope>): seq<Source> {
    if accepted == [] then []
    else
      var rest := Sources(accepted[..|accepted| - 1]);
      var src := SourceOf(accepted[|accepted| - 1].message);
      if src.Some? then rest + [src.value] else rest
  }

  /** The last accepted message under a key. */
  function LastUnder(accepted: seq<Envelope>, k: Key): Option<Envelope> {
    if accepted == [] then None
    else if KeyOf(accepted[|accepted| - 1].message) == k then Some(accepted[|accepted| - 1])
    else LastUnder(accepted[..|accepted| - 1], k)
  }

  /** The last accepted message that matches. */
  function LastMatching(accepted: seq<Envelope>, f: Filter): Option<Envelope> {
    if accepted == [] then None
    else if Matches(f, accepted[|accepted| - 1].message) then Some(accepted[|accepted| - 1])
    else LastMatching(accepted[..|accepted| - 1], f)
  }

  lemma AcceptedNext(accepted: seq<Envelope>, e: Envelope)
    ensures Keys(accepted + [e]) == Keys(accepted) + [KeyOf(e.message)]
    ensures Sources(accepted + [e]) ==
            if SourceOf(e.message).Some? then Sources(accepted) + [SourceOf(e.message).value] else Sources(accepted)
    ensures forall k :: LastUnder(accepted + [e], k) == if KeyOf(e.message) == k then Some(e) else LastUnder(accepted, k)
    ensures TallyOf(accepted + [e]) == Recorded(TallyOf(accepted), e.message)
  {
    assert (accepted + [e])[..|accepted|] == accepted;
  }

  /** The table of a router that never drops a source: the newest keys, each with its last message. */
  ghost predicate Faithful(latest: Table<Key, Envelope>, accepted: seq<Envelope>, capacity: Option<nat>) {
    && latest.order == Newest(Recent(Keys(accepted)), capacity)
    && (forall k :: k in latest.items ==> LastUnder(accepted, k) == Some(latest.items[k]))
  }

  lemma PutKeepsFaithful(latest: Table<Key, Envelope>, accepted: seq<Envelope>, e: Envelope, capacity: Option<nat>)
    requires TableOk(latest, capacity) && capacity != Some(0) && Faithful(latest, accepted, capacity)
    ensures Faithful(Put(latest, KeyOf(e.message), e, capacity), accepted + [e], capacity)
  {
    hide TableOk, Put, Recent, Newest, Touch;
    PutOk(latest, KeyOf(e.message), e, capacity);
    AcceptedNext(accepted, e);
    TouchIsRecent(Keys(accepted), KeyOf(e.message), capacity);
  }

  /** The match, if any, is what was accepted last under some matching key. */
  lemma {:induction false} BestOfRecent(latest: Table<Key, Envelope>, part: seq<Envelope>, f: Filter, possible: iset<Message>)
    requires KeyDecides(f, possible) && Within(part, possible)
    requires forall k :: k in Recent(Keys(part)) ==> Stores(latest, k, possible)
    ensures var best, last := BestMatch(latest, Recent(Keys(part)), f), LastMatching(part, f);
            && (best.Some? <==> last.Some?)
            && (best.Some? ==> KeyOf(best.value.message) == KeyOf(last.value.message))
    decreases |part|
  {
    if part != [] {
      var n := |part| - 1;
      var e := part[n];
      var k := KeyOf(e.message);
      var keys := Keys(part[..n]);
      assert part == part[..n] + [e];
      AcceptedNext(part[..n], e);
      RecentNext(keys, k);
      RecentHas(keys);
      RecentHas(keys + [k]);
      assert Recent(Keys(part))[..|Recent(Keys(part))| - 1] == Remove(Recent(keys), k);
      assert Stores(latest, k, possible);
      KeyTells(f, possible, e.message, latest.items[k].message);
      if !Matches(f, e.message) {
        RecentMembers(keys, k, latest, possible);
        BestOfRecent(latest, part[..n], f, possible);
        RemovingUnmatched(latest, Recent(keys), k, f);
      }
    }
  }

  /** The table holds a message that can occur under `k`, which is its key. */
  ghost predicate Stores(latest: Table<Key, Envelope>, k: Key, possible: iset<Message>) {
    k in latest.items && KeyOf(latest.items[k].message) == k && latest.items[k].message in possible
  }

  ghost function MessagesOf(accepted: seq<Envelope>): iset<Message> {
    iset e | e in accepted :: e.message
  }

  ghost predicate Within(accepted: seq<Envelope>, possible: iset<Message>) {
    forall e :: e in accepted ==> e.message in possible
  }

  lemma RecentMembers(keys: seq<Key>, k: Key, latest: Table<Key, Envelope>, possible: iset<Message>)
    requires forall x :: x in Recent(keys + [k]) ==> Stores(latest, x, possible)
    ensures forall x :: x in Recent(keys) ==> Stores(latest, x, possible)
  {
    RecentHas(keys);
    RecentHas(keys + [k]);
    hide Recent, Stores;
    forall x | x in Recent(keys) ensures x in Recent(keys + [k]) {
      assert x in keys + [k];
    }
  }

  lemma KeyTells(f: Filter, possible: iset<Message>, a: Message, b: Message)
    requires KeyDecides(f, possible) && a in possible && b in possible && KeyOf(a) == KeyOf(b)
    ensures Matches(f, a) == Matches(f, b)
  {
  }

  /** A filter on type and source is decided by the key. */
  lemma KeyOnlyDecides(f: Filter, possible: iset<Message>)
    requires KeyOnly(f)
    ensures KeyDecides(f, possible)
  {
  }

  lemma {:induction false} RemovingUnmatched(latest: Table<Key, Envelope>, order: seq<Key>, k: Key, f: Filter)
    requires k in latest.items && !Matches(f, latest.items[k].message)
    ensures BestMatch(latest, Remove(order, k), f) == BestMatch(latest, order, f)
    decreases |order|
  {
    hide Matches;
    if order != [] {
      var n := |order| - 1;
      RemovingUnmatched(latest, order[..n], k, f);
      var rest := Remove(order[..n], k);
      if order[n] != k {
        assert (rest + [order[n]])[..|rest|] == rest;
      }
    }
  }

  lemma {:induction false} LastMatchingIsLastUnder(accepted: seq<Envelope>, f: Filter, possible: iset<Message>)
    requires KeyDecides(f, possible) && Within(accepted, possible) && LastMatching(accepted, f).Some?
    ensures LastUnder(accepted, KeyOf(LastMatching(accepted, f).value.message)) == LastMatching(accepted, f)
    decreases |accepted|
  {
    hide Matches;
    var n := |accepted| - 1;
    var found := LastMatching(accepted, f).value;
    if !Matches(f, accepted[n].message) {
      LastMatchingIsLastUnder(accepted[..n], f, possible);
      FoundMatches(accepted[..n], f);
      if KeyOf(accepted[n].message) == KeyOf(found.message) {
        KeyTells(f, possible, accepted[n].message, found.message);
      }
    }
  }

  lemma {:induction false} FoundMatches(accepted: seq<Envelope>, f: Filter)
    requires LastMatching(accepted, f).Some?
    ensures Matches(f, LastMatching(accepted, f).value.message) && LastMatching(accepted, f).value in accepted
    decreases |accepted|
  {
    hide Matches;
    if !Matches(f, accepted[|accepted| - 1].message) {
      FoundMatches(accepted[..|accepted| - 1], f);
    }
  }

  /** Without any limit, the scan finds the last accepted match if the key decides about a match. */
  lemma FaithfulFindsLast(latest: Table<Key, Envelope>, accepted: seq<Envelope>, f: Filter, possible: iset<Message>)
    requires KeyDecides(f, possible) && Within(accepted, possible)
    requires TableOk(latest, None) && Faithful(latest, accepted, None)
    ensures BestMatch(latest, latest.order, f) == LastMatching(accepted, f)
  {
    hide Matches, Recent, KeyDecides;
    forall k | k in Recent(Keys(accepted)) ensures Stores(latest, k, possible) {
      assert k in latest.order;
      UnderItsKey(accepted, k);
    }
    hide Stores, Within;
    BestOfRecent(latest, accepted, f, possible);
    if LastMatching(accepted, f).Some? {
      LastMatchingIsLastUnder(accepted, f, possible);
      forall k | k in latest.order ensures k in latest.items && KeyOf(latest.items[k].message) == k {
        UnderItsKey(accepted, k);
      }
      BestIsStored(latest, latest.order, f);
    }
  }

  lemma {:induction false} UnderItsKey(accepted: seq<Envelope>, k: Key)
    ensures var last := LastUnder(accepted, k);
            last.Some? ==> KeyOf(last.value.message) == k && last.value in accepted
    decreases |accepted|
  {
    if accepted != [] {
      UnderItsKey(accepted[..|accepted| - 1], k);
    }
  }

  lemma {:induction false} BestIsStored(latest: Table<Key, Envelope>, order: seq<Key>, f: Filter)
    requires forall k :: k in order ==> k in latest.items && KeyOf(latest.items[k].message) == k
    ensures var best := BestMatch(latest, order, f);
            best.Some? ==> KeyOf(best.value.message) in latest.items && latest.items[KeyOf(best.value.message)] == best.value
    decreases |order|
  {
    if order != [] {
      BestIsStored(latest, order[..|order| - 1], f);
    }
  }

  /** What a router without limits stores: every accepted message, the last of each key. */
  function Stored(accepted: seq<Envelope>): Table<Key, Envelope> {
    if accepted == [] then Table([], map[])
    else
      var e := accepted[|accepted| - 1];
      Put(Stored(accepted[..|accepted| - 1]), KeyOf(e.message), e, None)
  }

  lemma {:induction false} StoredIsFaithful(accepted: seq<Envelope>)
    ensures TableOk(Stored(accepted), None) && Faithful(Stored(accepted), accepted, None)
    decreases |accepted|
  {
    hide Put, Recent;
    if accepted != [] {
      var n := |accepted| - 1;
      var e := accepted[n];
      StoredIsFaithful(accepted[..n]);
      hide TableOk, Faithful;
      PutOk(Stored(accepted[..n]), KeyOf(e.message), e, None);
      PutKeepsFaithful(Stored(accepted[..n]), accepted[..n], e, None);
      assert accepted == accepted[..n] + [e];
    } else {
      NothingStored();
    }
  }

  lemma NothingStored()
    ensures TableOk(Stored([]), None) && Faithful(Stored([]), [], None)
  {
  }

  /** The router numbers what it accepts in the order of arrival. */
  ghost predicate Numbered(accepted: seq<Envelope>) {
    forall i, j :: 0 <= i < j < |accepted| ==> accepted[i].sequence < accepted[j].sequence
  }

  /** Over all runs with the messages that can occur, the lookup answers with the last accepted match. */
  ghost predicate FindsLast(f: Filter, possible: iset<Message>) {
    forall accepted :: Numbered(accepted) && Within(accepted, possible) ==>
      BestMatch(Stored(accepted), Stored(accepted).order, f) == LastMatching(accepted, f)
  }

  /**
   * Without limits the lookup finds the last accepted match in every run if and only if the filter
   * never tells apart two possible messages of one key.
   */
  lemma FindsLastIffKeyDecides(f: Filter, possible: iset<Message>)
    ensures FindsLast(f, possible) <==> KeyDecides(f, possible)
  {
    if KeyDecides(f, possible) {
      KeyDecidesFindsLast(f, possible);
    }
    hide Matches, TableOk, Faithful, Stored, BestMatch, LastMatching;
    if FindsLast(f, possible) {
      forall a, b | a in possible && b in possible && KeyOf(a) == KeyOf(b) ensures Matches(f, a) == Matches(f, b) {
        if Matches(f, a) && !Matches(f, b) {
          ReplacedMatch(f, a, b);
        } else if Matches(f, b) && !Matches(f, a) {
          ReplacedMatch(f, b, a);
        }
      }
    }
  }

  lemma KeyDecidesFindsLast(f: Filter, possible: iset<Message>)
    requires KeyDecides(f, possible)
    ensures FindsLast(f, possible)
  {
    hide Matches, TableOk, Faithful, Stored, BestMatch, LastMatching, KeyDecides, Within, Numbered;
    forall accepted | Numbered(accepted) && Within(accepted, possible)
      ensures BestMatch(Stored(accepted), Stored(accepted).order, f) == LastMatching(accepted, f)
    {
      StoredIsFaithful(accepted);
      FaithfulFindsLast(Stored(accepted), accepted, f, possible);
    }
  }

  /** A match followed by a message of the same key that does not match is no longer found. */
  lemma ReplacedMatch(f: Filter, a: Message, b: Message)
    requires KeyOf(a) == KeyOf(b) && Matches(f, a) && !Matches(f, b)
    ensures var accepted := [Envelope(1, a), Envelope(2, b)];
            && Numbered(accepted)
            && LastMatching(accepted, f) == Some(Envelope(1, a))
            && BestMatch(Stored(accepted), Stored(accepted).order, f) == None
  {
    hide Matches;
    var first, second := Envelope(1, a), Envelope(2, b);
    StoredTwice(first, second);
    LastOfTwo(first, second, f);
    hide Stored, LastMatching;
    assert [KeyOf(a)][..0] == [];
  }

  lemma LastOfTwo(first: Envelope, second: Envelope, f: Filter)
    requires Matches(f, first.message) && !Matches(f, second.message)
    ensures LastMatching([first, second], f) == Some(first)
  {
    hide Matches;
    assert [first, second][..1] == [first];
  }

  lemma StoredTwice(first: Envelope, second: Envelope)
    requires KeyOf(first.message) == KeyOf(second.message)
    ensures Stored([first, second]) == Table([KeyOf(first.message)], map[KeyOf(first.message) := second])
  {
    var k := KeyOf(first.message);
    assert [first, second][..1] == [first];
    assert Stored([first]) == Table([k], map[k := first]) by {
      assert [first][..0] == [];
    }
    assert Remove([k], k) == [] by {
      assert [k][..0] == [];
    }
  }

  /** For example, a filter with a predicate of its own misses an older match that was replaced. */
  lemma PredicateMayMissMatches()
    ensures exists f: Filter, accepted: seq<Envelope> ::
              && Numbered(accepted)
              && LastMatching(accepted, f).Some?
              && BestMatch(Stored(accepted), Stored(accepted).order, f) == None
  {
    var a := Message(1, "ATTITUDE", Some(1), Some(1), None, None);
    var b := Message(2, "ATTITUDE", Some(1), Some(1), None, None);
    var f := Filter(None, None, None, None, (m: Message) => m.id == 1);
    ReplacedMatch(f, a, b);
  }

  /** The source table holds the newest sources; without a source limit the rest follows from what was accepted, too. */
  ghost predicate Traced(latest: Table<Key, Envelope>, sourceOrder: seq<Source>, tally: Tally, accepted: seq<Envelope>,
                         stateCapacity: Option<nat>, sourceCapacity: Option<nat>)
  {
    && sourceOrder == Newest(Recent(Sources(accepted)), sourceCapacity)
    && (sourceCapacity.None? ==> Faithful(latest, accepted, stateCapacity) && tally == TallyOf(accepted))
  }

  lemma TracedNext(latest: Table<Key, Envelope>, sourceOrder: seq<Source>, tally: Tally, accepted: seq<Envelope>,
                   stateCapacity: Option<nat>, sourceCapacity: Option<nat>, e: Envelope)
    requires Traced(latest, sourceOrder, tally, accepted, stateCapacity, sourceCapacity) && TableOk(latest, stateCapacity)
    requires stateCapacity != Some(0) && sourceCapacity != Some(0)
    ensures var order := if SourceOf(e.message).Some? then Touch(sourceOrder, SourceOf(e.message).value, sourceCapacity) else sourceOrder;
            && order == Newest(Recent(Sources(accepted + [e])), sourceCapacity)
            && (sourceCapacity.None? ==>
                  && Faithful(Put(latest, KeyOf(e.message), e, stateCapacity), accepted + [e], stateCapacity)
                  && Recorded(tally, e.message) == TallyOf(accepted + [e]))
  {
    hide Recent, Newest, Touch, Put, Faithful, Recorded, TableOk;
    AcceptedNext(accepted, e);
    if SourceOf(e.message).Some? {
      TouchIsRecent(Sources(accepted), SourceOf(e.message).value, sourceCapacity);
    }
    if sourceCapacity.None? {
      PutKeepsFaithful(latest, accepted, e, stateCapacity);
    }
  }

  // ---------------------------------------------------------------- one accepted message

  /** The source a message pushes out of the source table. */
  function ExpiredBy(sources: Table<Source, map<string, Message>>, m: Message, capacity: Option<nat>): Option<Source> {
    if SourceOf(m).Some? then Expired(sources, SourceOf(m).value, capacity) else None
  }

  function AsSet(src: Option<Source>): set<Source> {
    if src.Some? then {src.value} else {}
  }

  /** How many keys and sources a message pushes out. */
  function PushedOut(latest: Table<Key, Envelope>, k: Key, capacity: Option<nat>): nat {
    if k !in latest.items && capacity.Some? && |latest.order| >= capacity.value && latest.order != [] then 1 else 0
  }

  function ExpiredCount(latest: Table<Key, Envelope>, expired: Option<Source>): nat {
    if expired.Some? then 1 + |KeysOfSource(latest, expired.value)| else 0
  }

  // ---------------------------------------------------------------- the router

  class MessageRouter {
    const stateCapacity: Option<nat>
    const sourceCapacity: Option<nat>
    var sequence: nat
    var latest: Table<Key, Envelope>
    var sources: Table<Source, map<string, Message>>
    var numbers: map<Source, nat>
    var received: nat
    var filtered: nat
    var evictions: nat
    var lost: nat
    ghost var accepted: seq<Envelope>

    ghost predicate Valid()
      reads this
    {
      && stateCapacity != Some(0) && sourceCapacity != Some(0)
      && LatestOk(latest, stateCapacity, sequence)
      && TableOk(sources, sourceCapacity)
      && Linked(latest, sources.items)
      && numbers.Keys <= sources.items.Keys
      && Traced(latest, sources.order, Tally(numbers, lost), accepted, stateCapacity, sourceCapacity)
    }

    constructor (stateCapacity: Option<nat>, sourceCapacity: Option<nat>)
      requires stateCapacity != Some(0) && sourceCapacity != Some(0)
      ensures Valid() && accepted == [] && this.stateCapacity == stateCapacity && this.sourceCapacity == sourceCapacity
    {
      this.stateCapacity, this.sourceCapacity := stateCapacity, sourceCapacity;
      sequence, latest, sources, numbers := 0, Table([], map[]), Table([], map[]), map[];
      received, filtered, evictions, lost, accepted := 0, 0, 0, 0, [];
    }

    /** Refuses limits that are not positive. */
    static method Create(stateCapacity: Option<nat>, sourceCapacity: Option<nat>) returns (r: MessageRouter?)
      ensures r != null <==> stateCapacity != Some(0) && sourceCapacity != Some(0)
      ensures r != null ==> fresh(r) && r.Valid() && r.accepted == []
      ensures r != null ==> r.stateCapacity == stateCapacity && r.sourceCapacity == sourceCapacity
    {
      if stateCapacity == Some(0) || sourceCapacity == Some(0) {
        return null;
      }
      r := new MessageRouter(stateCapacity, sourceCapacity);
    }

    /** One message from the connection; `admit` is the verdict of the ingress filters. */
    method Receive(m: Message, admit: bool)
      requires Valid()
      modifies this
      ensures Valid() && sequence == old(sequence) + 1
      ensures !admit ==>
                && filtered == old(filtered) + 1 && received == old(received) && accepted == old(accepted)
                && latest == old(latest) && sources == old(sources) && numbers == old(numbers) && lost == old(lost)
      ensures admit ==>
                && filtered == old(filtered) && received == old(received) + 1
                && accepted == old(accepted) + [Envelope(sequence, m)]
                && KeyOf(m) in latest.items && latest.items[KeyOf(m)] == Envelope(sequence, m)
                && (SourceOf(m).None? ==> sources == old(sources))
                && (SourceOf(m).Some? ==> sources == SourcesAfter(old(sources), SourceOf(m).value, m, sourceCapacity))
                && old(lost) <= lost <= old(lost) + 63
      ensures admit ==>
                && latest == LatestAfter(Put(old(latest), KeyOf(m), Envelope(old(sequence) + 1, m), stateCapacity),
                                         ExpiredBy(old(sources), m, sourceCapacity))
                && Tally(numbers, lost) ==
                   Recorded(Tally(old(numbers) - AsSet(ExpiredBy(old(sources), m, sourceCapacity)), old(lost)), m)
    {
      hide LatestOk, TableOk, Linked, Traced, SourcesAfter, LatestAfter, Put, Recorded, ExpiredBy;
      if admit {
        Accept(m);
      } else {
        MoreSequence(latest, stateCapacity, sequence);
        sequence := sequence + 1;
        filtered := filtered + 1;
      }
    }

    method Accept(m: Message)
      requires Valid()
      modifies this
      ensures Valid() && sequence == old(sequence) + 1
      ensures filtered == old(filtered) && received == old(received) + 1
      ensures accepted == old(accepted) + [Envelope(sequence, m)]
      ensures KeyOf(m) in latest.items && latest.items[KeyOf(m)] == Envelope(sequence, m)
      ensures SourceOf(m).None? ==> sources == old(sources)
      ensures SourceOf(m).Some? ==> sources == SourcesAfter(old(sources), SourceOf(m).value, m, sourceCapacity)
      ensures Tally(numbers, lost) == Recorded(Tally(old(numbers) - AsSet(ExpiredBy(old(sources), m, sourceCapacity)), old(lost)), m)
      ensures old(lost) <= lost <= old(lost) + 63
      ensures latest == LatestAfter(Put(old(latest), KeyOf(m), Envelope(old(sequence) + 1, m), stateCapacity),
                                    ExpiredBy(old(sources), m, sourceCapacity))
      ensures evictions == old(evictions) + PushedOut(old(latest), KeyOf(m), stateCapacity)
                           + ExpiredCount(Put(old(latest), KeyOf(m), Envelope(old(sequence) + 1, m), stateCapacity),
                                          ExpiredBy(old(sources), m, sourceCapacity))
    {
      hide LatestOk, TableOk, Linked, Put, Touch, Traced, SourcesAfter, Recorded;
      hide TallyOf, Sources, Recent, Newest, Faithful, LatestAfter, PushedOut, ExpiredCount, ExpiredBy;
      var e := Envelope(sequence + 1, m);
      LatestTable(latest, stateCapacity, sequence);
      TracedNext(latest, sources.order, Tally(numbers, lost), accepted, stateCapacity, sourceCapacity, e);
      StoreTables(m, e);
      sequence := sequence + 1;
      received := received + 1;
      RecordDelivery(m);
      accepted := accepted + [e];
      TracedNow(latest, sources.order, Tally(numbers, lost), accepted, stateCapacity, sourceCapacity);
    }

    /** Updates both tables, which stay linked. */
    method StoreTables(m: Message, e: Envelope)
      requires stateCapacity != Some(0) && sourceCapacity != Some(0)
      requires e == Envelope(sequence + 1, m) && LatestOk(latest, stateCapacity, sequence)
      requires TableOk(sources, sourceCapacity) && Linked(latest, sources.items) && numbers.Keys <= sources.items.Keys
      modifies `latest, `sources, `numbers, `evictions
      ensures LatestOk(latest, stateCapacity, sequence + 1)
      ensures TableOk(sources, sourceCapacity) && Linked(latest, sources.items) && numbers.Keys <= sources.items.Keys
      ensures KeyOf(m) in latest.items && latest.items[KeyOf(m)] == e
      ensures numbers == old(numbers) - AsSet(ExpiredBy(old(sources), m, sourceCapacity))
      ensures latest == LatestAfter(Put(old(latest), KeyOf(m), Envelope(old(sequence) + 1, m), stateCapacity),
                                    ExpiredBy(old(sources), m, sourceCapacity))
      ensures evictions == old(evictions) + PushedOut(old(latest), KeyOf(m), stateCapacity)
                           + ExpiredCount(Put(old(latest), KeyOf(m), Envelope(old(sequence) + 1, m), stateCapacity),
                                          ExpiredBy(old(sources), m, sourceCapacity))
      ensures SourceOf(m).None? ==> sources == old(sources)
      ensures SourceOf(m).Some? ==>
                && sources == SourcesAfter(old(sources), SourceOf(m).value, m, sourceCapacity)
                && sources.order == Touch(old(sources).order, SourceOf(m).value, sourceCapacity)
                && SourceOf(m).value in sources.items
      ensures sourceCapacity.None? ==> latest == Put(old(latest), KeyOf(m), e, stateCapacity) && numbers == old(numbers)
    {
      hide LatestOk, TableOk, Linked, LinkedBut, Put, Touch, SourcesAfter;
      LatestTable(latest, stateCapacity, sequence);
      PutKeepsLatest(latest, e, stateCapacity, sequence);
      LinkedAfterPut(latest, sources.items, e, stateCapacity);
      PutHas(latest, KeyOf(m), e, stateCapacity);
      StoreLatest(KeyOf(m), e);
      if SourceOf(m).Some? {
        StoreSource(m, SourceOf(m).value, sequence + 1);
      } else {
        OwnKeyUnlinked(latest, sources.items, KeyOf(m));
      }
    }

    lemma TracedNow(latest: Table<Key, Envelope>, sourceOrder: seq<Source>, tally: Tally, accepted: seq<Envelope>,
                    stateCapacity: Option<nat>, sourceCapacity: Option<nat>)
      requires sourceOrder == Newest(Recent(Sources(accepted)), sourceCapacity)
      requires sourceCapacity.None? ==> Faithful(latest, accepted, stateCapacity) && tally == TallyOf(accepted)
      ensures Traced(latest, sourceOrder, tally, accepted, stateCapacity, sourceCapacity)
    {
    }

    /** Stores the message as the latest of its key; a new key may push out the oldest. */
    method StoreLatest(k: Key, e: Envelope)
      requires TableOk(latest, stateCapacity)
      modifies `latest, `evictions
      ensures latest == Put(old(latest), k, e, stateCapacity)
      ensures evictions == old(evictions) + PushedOut(old(latest), k, stateCapacity)
    {
      hide NoDuplicates, Remove;
      var t := latest;
      if k in t.items {
        latest := Table(Remove(t.order, k) + [k], t.items[k := e]);
      } else {
        if stateCapacity.Some? && |t.order| >= stateCapacity.value && t.order != [] {
          t := Table(t.order[1..], t.items - {t.order[0]});
          evictions := evictions + 1;
        }
        latest := Table(t.order + [k], t.items[k := e]);
      }
    }

    /** Remembers the message under its source; a new source may push out the one heard longest ago. */
    method StoreSource(m: Message, src: Source, ghost upTo: nat)
      requires SourceOf(m) == Some(src)
      requires stateCapacity != Some(0) && sourceCapacity != Some(0)
      requires LatestOk(latest, stateCapacity, upTo) && TableOk(sources, sourceCapacity)
      requires LinkedBut(latest, sources.items, KeyOf(m))
      requires KeyOf(m) in latest.items && latest.items[KeyOf(m)].message == m
      requires numbers.Keys <= sources.items.Keys
      modifies `latest, `sources, `numbers, `evictions
      ensures sources == SourcesAfter(old(sources), src, m, sourceCapacity)
      ensures latest == LatestAfter(old(latest), Expired(old(sources), src, sourceCapacity))
      ensures LatestOk(latest, stateCapacity, upTo) && TableOk(sources, sourceCapacity) && Linked(latest, sources.items)
      ensures KeyOf(m) in latest.items && latest.items[KeyOf(m)] == old(latest).items[KeyOf(m)]
      ensures numbers.Keys <= sources.items.Keys && src in sources.items
      ensures sources.order == Touch(old(sources).order, src, sourceCapacity)
      ensures sourceCapacity.None? ==> latest == old(latest) && numbers == old(numbers)
      ensures numbers == old(numbers) - AsSet(Expired(old(sources), src, sourceCapacity))
      ensures evictions == old(evictions) + ExpiredCount(old(latest), Expired(old(sources), src, sourceCapacity))
    {
      hide LatestOk, TableOk, Linked, LinkedBut, NoDuplicates, Remove, RemoveAll, KeysOfSource, Put, Touch, Drop;
      SourceStoreKeeps(latest, sources, m, stateCapacity, sourceCapacity, upTo);
      var expired := Expired(sources, src, sourceCapacity);
      sources := Put(sources, src, (if src in sources.items then sources.items[src] else map[])[m.kind := m], sourceCapacity);
      if expired.Some? {
        numbers := numbers - {expired.value};
        evictions := evictions + 1 + |KeysOfSource(latest, expired.value)|;
        latest := Drop(latest, KeysOfSource(latest, expired.value));
      }
    }

    /** Updates the loss estimate from the packet number. */
    method RecordDelivery(m: Message)
      modifies `numbers, `lost
      ensures Tally(numbers, lost) == Recorded(Tally(old(numbers), old(lost)), m)
      ensures old(lost) <= lost <= old(lost) + 63
      ensures numbers.Keys <= old(numbers).Keys + (if SourceOf(m).Some? then {SourceOf(m).value} else {})
      ensures SourceOf(m).None? ==> numbers == old(numbers)
    {
      if SourceOf(m).None? || m.number.None? {
        return;
      }
      var src, number := SourceOf(m).value, m.number.value % 256;
      if src in numbers {
        lost := lost + DroppedBetween(numbers[src], number);
      }
      numbers := numbers[src := number];
    }

    /** The newest latest message that matches; a single key is looked up directly. */
    method Latest(f: Filter) returns (found: Option<Message>)
      requires Valid()
      ensures var best := BestMatch(latest, latest.order, f);
              found == if best.Some? then Some(best.value.message) else None
      ensures stateCapacity.None? && sourceCapacity.None? && KeyDecides(f, MessagesOf(accepted)) ==>
                found == if LastMatching(accepted, f).Some? then Some(LastMatching(accepted, f).value.message) else None
    {
      hide Matches, Linked, Recent, Newest, KeyDecides, Ascending, NoDuplicates, SingleKey, BestMatch;
      if stateCapacity.None? && sourceCapacity.None? && KeyDecides(f, MessagesOf(accepted)) {
        FaithfulFindsLast(latest, accepted, f, MessagesOf(accepted));
      }
      assert latest.order[..|latest.order|] == latest.order;
      var candidates := latest.order;
      if SingleKey(f).Some? {
        SingleKeySuffices(latest, f, |latest.order|);
        var k := SingleKey(f).value;
        candidates := if k in latest.items then [k] else [];
        OneCandidate(latest, f, k);
      } else {
        AllCandidates(latest);
      }
      var best := Scan(candidates, f);
      return if best.None? then None else Some(best.value.message);
    }

    /** Goes through the candidates with a running best. */
    method Scan(candidates: seq<Key>, f: Filter) returns (best: Option<Envelope>)
      requires forall k :: k in candidates ==> k in latest.items
      requires Rising(latest, candidates)
      ensures best == BestMatch(latest, candidates, f)
    {
      hide Matches;
      best := None;
      for i := 0 to |candidates|
        invariant best.Some? ==> exists j :: 0 <= j < i && latest.items[candidates[j]] == best.value
        invariant best == BestMatch(latest, candidates[..i], f)
      {
        var e := latest.items[candidates[i]];
        assert candidates[..i + 1][..i] == candidates[..i];
        if (best.None? || e.sequence > best.value.sequence) && Matches(f, e.message) {
          best := Some(e);
        }
      }
      assert candidates[..|candidates|] == candidates;
    }
  }

  ghost predicate Rising(latest: Table<Key, Envelope>, candidates: seq<Key>)
    requires forall k :: k in candidates ==> k in latest.items
  {
    forall i, j :: 0 <= i < j < |candidates| ==> latest.items[candidates[i]].sequence < latest.items[candidates[j]].sequence
  }

  lemma AllCandidates(latest: Table<Key, Envelope>)
    requires Ascending(latest) && forall k :: k in latest.order ==> k in latest.items
    ensures Rising(latest, latest.order)
  {
  }

  lemma OneCandidate(latest: Table<Key, Envelope>, f: Filter, k: Key)
    ensures BestMatch(latest, if k in latest.items then [k] else [], f) ==
            if k in latest.items && Matches(f, latest.items[k].message) then Some(latest.items[k]) else None
  {
    hide Matches;
    assert BestMatch(latest, [k][..0], f) == None;
  }

  /** What storing a message under its source keeps. */
  lemma SourceStoreKeeps(latest: Table<Key, Envelope>, sources: Table<Source, map<string, Message>>, m: Message,
                         stateCapacity: Option<nat>, sourceCapacity: Option<nat>, sequence: nat)
    requires stateCapacity != Some(0) && sourceCapacity != Some(0) && SourceOf(m).Some?
    requires LatestOk(latest, stateCapacity, sequence) && TableOk(sources, sourceCapacity)
    requires LinkedBut(latest, sources.items, KeyOf(m))
    requires KeyOf(m) in latest.items && latest.items[KeyOf(m)].message == m
    ensures var src := SourceOf(m).value;
            var expired := Expired(sources, src, sourceCapacity);
            var l, s := LatestAfter(latest, expired), SourcesAfter(sources, src, m, sourceCapacity);
            && LatestOk(l, stateCapacity, sequence) && TableOk(s, sourceCapacity) && Linked(l, s.items)
            && KeyOf(m) in l.items && l.items[KeyOf(m)] == latest.items[KeyOf(m)]
            && src in s.items && s.order == Touch(sources.order, src, sourceCapacity)
            && (forall x :: x in sources.items && Some(x) != expired ==> x in s.items)
  {
    var src := SourceOf(m).value;
    var state := (if src in sources.items then sources.items[src] else map[])[m.kind := m];
    LatestTable(latest, stateCapacity, sequence);
    LinkedAfterSource(latest, sources, m, sourceCapacity);
    PutOk(sources, src, state, sourceCapacity);
    KeptSources(sources, src, state, sourceCapacity);
    hide LatestOk, TableOk, Linked, LinkedBut, RemoveAll, KeysOfSource, Put, Touch;
    var expired := Expired(sources, src, sourceCapacity);
    if expired.Some? {
      DropKeepsLatest(latest, KeysOfSource(latest, expired.value), stateCapacity, sequence);
    }
  }

  lemma MoreSequence(latest: Table<Key, Envelope>, capacity: Option<nat>, sequence: nat)
    requires LatestOk(latest, capacity, sequence)
    ensures LatestOk(latest, capacity, sequence + 1)
  {
    hide TableOk, Ascending;
  }

  lemma LatestTable(latest: Table<Key, Envelope>, capacity: Option<nat>, sequence: nat)
    requires LatestOk(latest, capacity, sequence)
    ensures TableOk(latest, capacity)
    ensures forall k :: k in latest.items ==> KeyOf(latest.items[k].message) == k
  {
  }

  lemma PutHas(latest: Table<Key, Envelope>, k: Key, e: Envelope, capacity: Option<nat>)
    requires TableOk(latest, capacity) && capacity != Some(0)
    ensures k in Put(latest, k, e, capacity).items && Put(latest, k, e, capacity).items[k] == e
  {
    PutOk(latest, k, e, capacity);
  }

  lemma OwnKeyUnlinked(latest: Table<Key, Envelope>, sources: map<Source, map<string, Message>>, k: Key)
    requires LinkedBut(latest, sources, k) && k in latest.items && SourceOf(latest.items[k].message).None?
    ensures Linked(latest, sources)
  {
  }

  lemma DropKeepsLatest(latest: Table<Key, Envelope>, ks: set<Key>, capacity: Option<nat>, sequence: nat)
    requires LatestOk(latest, capacity, sequence)
    ensures LatestOk(Drop(latest, ks), capacity, sequence)
  {
    DropOk(latest, ks, capacity);
    DropKeepsAscending(latest, ks);
    hide TableOk, Ascending, RemoveAll;
  }
}
