// A packet sent in fragments is delivered exactly once, whatever happens around it.

module ApplicationRoundTrip {
  import opened Prelude
  import opened ApplicationCodec
  import opened ApplicationAssembler

  /** One call of `accept`. */
  datatype Call = Call(system: Option<Byte>, component: Option<Byte>, payload: seq<Byte>, now: real)

  ghost function KeyOf(c: Call): Option<Key> {
    match DecodeFragment(c.payload)
    case Err(_) => None
    case Ok(f) => Some(Key(c.system.Or(0), c.component.Or(0), f.packetId))
  }

  ghost function Step(l: Limits, crc: seq<Byte> -> Word, s: State, c: Call): (State, Reply)
    requires Consistent(l, s)
  {
    AcceptPayload(l, crc, s, c.payload, c.system, c.component, c.now)
  }

  lemma StepKeeps(l: Limits, crc: seq<Byte> -> Word, s: State, c: Call)
    requires Consistent(l, s)
    ensures Consistent(l, Step(l, crc, s, c).0)
  {
    hide Consistent, Accept, WellFormed;
    DecodedIsWellFormed(c.payload);
    if DecodeFragment(c.payload).Ok? {
      var f := DecodeFragment(c.payload).value;
      AcceptKeepsOk(l, crc, s, Key(c.system.Or(0), c.component.Or(0), f.packetId), f, c.now);
    }
  }

  /** The state after a sequence of calls. */
  ghost function After(l: Limits, crc: seq<Byte> -> Word, s: State, calls: seq<Call>): (t: State)
    requires Consistent(l, s)
    ensures Consistent(l, t)
    decreases |calls|
  {
    if calls == [] then s
    else
      var before := After(l, crc, s, calls[..|calls| - 1]);
      StepKeeps(l, crc, before, calls[|calls| - 1]);
      Step(l, crc, before, calls[|calls| - 1]).0
  }

  ghost function ReplyAt(l: Limits, crc: seq<Byte> -> Word, s: State, calls: seq<Call>, j: nat): Reply
    requires Consistent(l, s) && j < |calls|
  {
    Step(l, crc, After(l, crc, s, calls[..j]), calls[j]).1
  }

  // ---------------------------------------------------------------- the packet that is followed

  /** What is sent: a body under a key, and the checksum function both sides use. */
  datatype Sent = Sent(key: Key, body: seq<Byte>)

  ghost predicate Sendable(p: Sent) {
    p.key.packetId > 0 && ApplicationCodec.Fits(p.body)
  }

  /** The call brings the `i`-th fragment of the packet. */
  ghost predicate Brings(c: Call, p: Sent, crc: seq<Byte> -> Word, i: nat) {
    && i < FragmentCount(p.body)
    && KeyOf(c) == Some(p.key)
    && DecodeFragment(c.payload) == Ok(FragmentOf(p.key.packetId, p.body, crc, i))
  }

  /** The padded payloads the encoder produces are what the round trip is about. */
  lemma EncodedBrings(c: Call, p: Sent, crc: seq<Byte> -> Word, i: nat)
    requires Sendable(p) && i < FragmentCount(p.body)
    requires c.payload == Padded(Pack(FragmentOf(p.key.packetId, p.body, crc, i)))
    requires c.system.Or(0) == p.key.system && c.component.Or(0) == p.key.component
    ensures Brings(c, p, crc, i)
  {
    FragmentsAreWellFormed(p.key.packetId, p.body, crc, i);
    PaddedDecodes(FragmentOf(p.key.packetId, p.body, crc, i));
    hide DecodeFragment, Padded, Pack;
  }

  ghost predicate Ours(c: Call, p: Sent, crc: seq<Byte> -> Word) {
    exists i :: Brings(c, p, crc, i)
  }

  /** Nothing but fragments of the packet arrives under its key. */
  ghost predicate OnlyOurs(calls: seq<Call>, p: Sent, crc: seq<Byte> -> Word) {
    forall j :: 0 <= j < |calls| && KeyOf(calls[j]) == Some(p.key) ==> Ours(calls[j], p, crc)
  }

  ghost predicate BroughtBy(calls: seq<Call>, p: Sent, crc: seq<Byte> -> Word, i: nat) {
    exists j :: 0 <= j < |calls| && Brings(calls[j], p, crc, i)
  }

  /** Every fragment arrives at least once. */
  ghost predicate AllBrought(calls: seq<Call>, p: Sent, crc: seq<Byte> -> Word) {
    forall i: nat :: i < FragmentCount(p.body) ==> BroughtBy(calls, p, crc, i)
  }

  /** The fragments that have arrived. */
  ghost function Got(calls: seq<Call>, p: Sent): set<nat>
    decreases |calls|
  {
    if calls == [] then {}
    else
      var c := calls[|calls| - 1];
      Got(calls[..|calls| - 1], p) + (if KeyOf(c) == Some(p.key) then {DecodeFragment(c.payload).value.index} else {})
  }

  ghost function AllOf(p: Sent): set<nat> {
    Below(FragmentCount(p.body))
  }

  /** The call loses nothing of the packet: no expiry, no limit hit, not pushed out of the history. */
  ghost predicate Undisturbed(l: Limits, crc: seq<Byte> -> Word, s: State, c: Call, k: Key)
    requires Consistent(l, s)
  {
    var p := Prune(l, s, c.now);
    && (k in s.assemblies ==> k in p.assemblies)
    && (k in s.completed ==> k in p.completed)
    && (k in p.completed ==> k in Step(l, crc, s, c).0.completed)
    && (KeyOf(c) == Some(k) && k !in p.completed ==> RoomFor(l, p, k, DecodeFragment(c.payload).value))
  }

  ghost predicate RoomFor(l: Limits, p: State, k: Key, f: Fragment) {
    && (k !in p.assemblies ==> |p.assemblies| < l.maxAssemblies)
    && ((k in p.assemblies && f.index in p.assemblies[k].fragments) || TotalBytes(p.assemblies) + |f.chunk| <= l.maxBytes)
  }

  // ---------------------------------------------------------------- how far the packet has come

  ghost predicate Holding(a: Assembly, p: Sent, crc: seq<Byte> -> Word, got: set<nat>) {
    && a.count == FragmentCount(p.body)
    && a.checksum == crc(p.body)
    && a.fragments.Keys == got
    && (forall i :: i in got ==> a.fragments[i] == Chunk(p.body, i))
  }

  ghost predicate Progress(s: State, p: Sent, crc: seq<Byte> -> Word, got: set<nat>) {
    && got <= AllOf(p)
    && (if got == {} then p.key !in s.assemblies && p.key !in s.completed
        else if got == AllOf(p) then p.key in s.completed
        else p.key in s.assemblies && p.key !in s.completed && Holding(s.assemblies[p.key], p, crc, got))
  }

  lemma PruneKeepsProgress(l: Limits, s: State, now: real, p: Sent, crc: seq<Byte> -> Word, got: set<nat>)
    requires Progress(s, p, crc, got)
    requires var q := Prune(l, s, now);
             (p.key in s.assemblies ==> p.key in q.assemblies) && (p.key in s.completed ==> p.key in q.completed)
    ensures Progress(Prune(l, s, now), p, crc, got)
  {
    hide KeepAfter;
  }

  /** A complete assembly of our chunks joins to the body. */
  lemma FullJoins(a: Assembly, p: Sent, crc: seq<Byte> -> Word)
    requires Sendable(p) && Holding(a, p, crc, AllOf(p))
    ensures |a.fragments| == a.count
    ensures (forall i :: 0 <= i < a.count ==> i in a.fragments) && Join(a.fragments, a.count) == p.body
  {
    assert |a.fragments.Keys| == |a.fragments|;
    forall i | 0 <= i < a.count ensures i in a.fragments && a.fragments[i] == Chunk(p.body, i) {
      assert i in AllOf(p);
    }
    ChunksJoin(p.body, a.fragments, a.count);
    CountCovers(p.body, a.count);
    assert p.body[..|p.body|] == p.body;
  }

  lemma PartialIsShort(a: Assembly, p: Sent, crc: seq<Byte> -> Word, got: set<nat>)
    requires Holding(a, p, crc, got) && got <= AllOf(p) && got != AllOf(p)
    ensures |a.fragments| != a.count
  {
    SubsetSize(got, AllOf(p));
    assert |a.fragments.Keys| == |a.fragments|;
  }

  lemma {:induction false} TrimKeepsLast(order: seq<Key>, completed: map<Key, real>, max: nat)
    requires NoDuplicates(order) && order != [] && max > 0 && order[|order| - 1] in completed
    ensures order[|order| - 1] in Trim(order, completed, max).1
    decreases |order|
  {
    if |order| > max {
      assert order[0] != order[|order| - 1];
      TrimKeepsLast(order[1..], completed - {order[0]}, max);
    }
  }

  /** Closing the assembly stores it while it is partial, and delivers the body when it is full. */
  lemma CloseProgress(l: Limits, crc: seq<Byte> -> Word, s: State, p: Sent, a: Assembly, got: set<nat>, now: real)
    requires l.maxCompleted > 0 && CompletedOk(l, s.completed, s.order)
    requires Sendable(p) && AssemblyOk(a) && p.key !in s.completed
    requires Holding(a, p, crc, got) && got <= AllOf(p) && got != {}
    ensures var (t, r) := Close(l, crc, s, p.key, a, now);
            Progress(t, p, crc, got) && r == if got == AllOf(p) then Packet(p.body) else Nothing
  {
    if got == AllOf(p) {
      FullJoins(a, p, crc);
      hide AssemblyOk, Holding, Join, Sendable, CompletedOk;
      RememberHas(l, Drop(s, p.key), p.key, now);
    } else {
      PartialIsShort(a, p, crc, got);
    }
  }

  lemma RememberHas(l: Limits, s: State, key: Key, now: real)
    requires l.maxCompleted > 0 && CompletedOk(l, s.completed, s.order) && key !in s.completed
    ensures key in Remember(l, s, key, now).completed
  {
    hide NoDuplicates;
    AppendNew(s.order, key);
    TrimKeepsLast(s.order + [key], s.completed[key := now], l.maxCompleted);
  }

  /** One of our fragments moves the packet on; the one that completes it delivers the body. */
  lemma OurStep(l: Limits, crc: seq<Byte> -> Word, s: State, c: Call, p: Sent, i: nat, got: set<nat>)
    requires Consistent(l, s) && l.maxCompleted > 0
    requires Sendable(p) && Progress(s, p, crc, got) && Brings(c, p, crc, i)
    requires Undisturbed(l, crc, s, c, p.key)
    ensures var (t, r) := Step(l, crc, s, c);
            && Progress(t, p, crc, got + {i})
            && r == if got != AllOf(p) && got + {i} == AllOf(p) then Packet(p.body) else Nothing
  {
    hide Consistent, AssemblyOk, Prune, TotalBytes, Insert, Sendable, Progress, DecodeFragment, Holding, AllOf, FragmentOf, WellFormed;
    var q := Prune(l, s, c.now);
    var f := FragmentOf(p.key.packetId, p.body, crc, i);
    FirstOrFull(s, p, crc, got);
    PruneKeepsProgress(l, s, c.now, p, crc, got);
    FirstOrFull(q, p, crc, got);
    PruneKeepsOk(l, s, c.now);
    FragmentMeans(p, crc, i);
    IndexInside(p, i);
    hide FragmentCount;
    if p.key in q.completed {
      assert got + {i} == got;
    } else {
      DecodedIsWellFormed(c.payload);
      OrderFacts(l, q);
      if p.key in q.assemblies {
        HoldingMeans(q.assemblies[p.key], p, crc, got);
        InsertProgress(l, crc, q, p, q.assemblies[p.key], f, got, c.now);
      } else {
        NewAssemblyOk(f, c.now);
        NewHolds(p, crc, f, c.now);
        InsertProgress(l, crc, q, p, NewAssembly(f, c.now), f, got, c.now);
      }
    }
  }

  lemma NewHolds(p: Sent, crc: seq<Byte> -> Word, f: Fragment, now: real)
    requires f.count == FragmentCount(p.body) && f.checksum == crc(p.body)
    ensures Holding(NewAssembly(f, now), p, crc, {})
  {
  }

  lemma IndexInside(p: Sent, i: nat)
    requires i < FragmentCount(p.body)
    ensures i in AllOf(p)
  {
  }

  lemma FirstOrFull(s: State, p: Sent, crc: seq<Byte> -> Word, got: set<nat>)
    requires Progress(s, p, crc, got)
    ensures got <= AllOf(p)
    ensures p.key in s.completed <==> got == AllOf(p)
    ensures p.key !in s.completed ==> (p.key in s.assemblies <==> got != {})
    ensures p.key !in s.completed && p.key in s.assemblies ==> Holding(s.assemblies[p.key], p, crc, got)
  {
    assert 0 in AllOf(p);
  }

  lemma InsertProgress(l: Limits, crc: seq<Byte> -> Word, s: State, p: Sent, a: Assembly, f: Fragment, got: set<nat>, now: real)
    requires Consistent(l, s) && l.maxCompleted > 0 && Sendable(p) && AssemblyOk(a) && WellFormed(f)
    requires p.key !in s.completed && got <= AllOf(p) && got != AllOf(p) && Holding(a, p, crc, got)
    requires f.index in AllOf(p) && f == FragmentOf(p.key.packetId, p.body, crc, f.index)
    requires f.index in a.fragments || TotalBytes(s.assemblies) + |f.chunk| <= l.maxBytes
    ensures var (t, r) := Insert(l, crc, s, p.key, a, f, now);
            && Progress(t, p, crc, got + {f.index})
            && r == if got + {f.index} == AllOf(p) then Packet(p.body) else Nothing
  {
    hide Consistent, AssemblyOk, WellFormed, TotalBytes, Close, Sendable, Progress, CompletedOk, Holding, FragmentOf;
    CompletedFacts(l, s);
    HoldingMeans(a, p, crc, got);
    FragmentMeans(p, crc, f.index);
    if f.index in a.fragments {
      assert got + {f.index} == got;
      CloseProgress(l, crc, s, p, a, got, now);
    } else {
      ExtendedOk(a, f);
      ExtendedHolds(a, p, crc, got, f);
      CloseProgress(l, crc, s, p, Extended(a, f), got + {f.index}, now);
    }
  }

  lemma HoldingMeans(a: Assembly, p: Sent, crc: seq<Byte> -> Word, got: set<nat>)
    requires Holding(a, p, crc, got)
    ensures a.count == FragmentCount(p.body) && a.checksum == crc(p.body) && a.fragments.Keys == got
    ensures forall i :: i in got ==> a.fragments[i] == Chunk(p.body, i)
  {
  }

  lemma FragmentMeans(p: Sent, crc: seq<Byte> -> Word, i: nat)
    ensures var f := FragmentOf(p.key.packetId, p.body, crc, i);
            f.index == i && f.count == FragmentCount(p.body) && f.checksum == crc(p.body) && f.chunk == Chunk(p.body, i)
  {
  }

  lemma ExtendedHolds(a: Assembly, p: Sent, crc: seq<Byte> -> Word, got: set<nat>, f: Fragment)
    requires Holding(a, p, crc, got) && f.chunk == Chunk(p.body, f.index)
    ensures Holding(Extended(a, f), p, crc, got + {f.index})
  {
  }

  lemma CompletedFacts(l: Limits, s: State)
    requires Consistent(l, s)
    ensures CompletedOk(l, s.completed, s.order)
  {
  }

  // ---------------------------------------------------------------- what other calls do

  lemma {:induction false} TrimOnlyForgets(order: seq<Key>, completed: map<Key, real>, max: nat)
    ensures Trim(order, completed, max).1.Keys <= completed.Keys
    decreases |order|
  {
    if |order| > max {
      TrimOnlyForgets(order[1..], completed - {order[0]}, max);
    }
  }

  /** A call about another key leaves this key's assembly alone, and completes nothing under it. */
  ghost predicate Elsewhere(q: State, t: State, k: Key) {
    && (k in t.assemblies <==> k in q.assemblies)
    && (k in q.assemblies ==> k in t.assemblies && t.assemblies[k] == q.assemblies[k])
    && (k in t.completed ==> k in q.completed)
  }

  lemma CloseElsewhere(l: Limits, crc: seq<Byte> -> Word, s: State, key: Key, a: Assembly, now: real, k: Key)
    requires AssemblyOk(a) && k != key
    ensures Elsewhere(s, Close(l, crc, s, key, a, now).0, k)
  {
    hide AssemblyOk, Remember, Join, Elsewhere;
    var t := Close(l, crc, s, key, a, now).0;
    assert t == s.(assemblies := s.assemblies[key := a]) || t == Drop(s, key) || t == Remember(l, Drop(s, key), key, now);
    RememberElsewhere(l, Drop(s, key), key, now);
    hide Close;
    StoredElsewhere(s, t, key, a, k);
  }

  lemma StoredElsewhere(s: State, t: State, key: Key, a: Assembly, k: Key)
    requires k != key && t.completed.Keys <= s.completed.Keys + {key}
    requires t.assemblies == s.assemblies - {key} || t.assemblies == s.assemblies[key := a]
    ensures Elsewhere(s, t, k)
  {
  }

  lemma RememberElsewhere(l: Limits, s: State, key: Key, now: real)
    ensures var r := Remember(l, s, key, now);
            r.assemblies == s.assemblies && r.completed.Keys <= s.completed.Keys + {key}
  {
    TrimOnlyForgets(s.order + [key], s.completed[key := now], l.maxCompleted);
  }

  lemma InsertElsewhere(l: Limits, crc: seq<Byte> -> Word, s: State, key: Key, a: Assembly, f: Fragment, now: real, k: Key)
    requires AssemblyOk(a) && WellFormed(f) && f.count == a.count && k != key
    ensures Elsewhere(s, Insert(l, crc, s, key, a, f, now).0, k)
  {
    hide AssemblyOk, WellFormed, Close, TotalBytes;
    if f.index in a.fragments {
      CloseElsewhere(l, crc, s, key, a, now, k);
    } else {
      ExtendedOk(a, f);
      CloseElsewhere(l, crc, s, key, Extended(a, f), now, k);
    }
  }

  lemma OtherStep(l: Limits, crc: seq<Byte> -> Word, s: State, c: Call, p: Sent, got: set<nat>)
    requires Consistent(l, s) && Progress(s, p, crc, got) && KeyOf(c) != Some(p.key)
    requires Undisturbed(l, crc, s, c, p.key)
    ensures Progress(Step(l, crc, s, c).0, p, crc, got)
  {
    hide Consistent, Prune, Insert, Progress, DecodeFragment, AssemblyOk, WellFormed, Elsewhere;
    if KeyOf(c).Some? {
      var q := Prune(l, s, c.now);
      var f := DecodeFragment(c.payload).value;
      PruneKeepsProgress(l, s, c.now, p, crc, got);
      PruneKeepsOk(l, s, c.now);
      OrderFacts(l, q);
      DecodedIsWellFormed(c.payload);
      var key := KeyOf(c).value;
      var t := Step(l, crc, s, c).0;
      AcceptElsewhere(l, crc, s, key, f, c.now, p.key);
      ElsewhereKeepsProgress(q, t, p, crc, got);
    }
  }

  lemma AcceptElsewhere(l: Limits, crc: seq<Byte> -> Word, s: State, key: Key, f: Fragment, now: real, k: Key)
    requires Consistent(l, s) && WellFormed(f) && k != key
    ensures Elsewhere(Prune(l, s, now), Accept(l, crc, s, key, f, now).0, k)
  {
    var q := Prune(l, s, now);
    PruneKeepsOk(l, s, now);
    OrderFacts(l, q);
    hide Consistent, AssemblyOk, WellFormed, Insert, Prune;
    if key in q.completed {
    } else if key in q.assemblies {
      if q.assemblies[key].count == f.count {
        InsertElsewhere(l, crc, q, key, q.assemblies[key], f, now, k);
      }
    } else {
      NewAssemblyOk(f, now);
      InsertElsewhere(l, crc, q, key, NewAssembly(f, now), f, now, k);
    }
  }

  lemma ElsewhereKeepsProgress(q: State, t: State, p: Sent, crc: seq<Byte> -> Word, got: set<nat>)
    requires Progress(q, p, crc, got) && Elsewhere(q, t, p.key)
    requires p.key in q.completed ==> p.key in t.completed
    ensures Progress(t, p, crc, got)
  {
    assert 0 in AllOf(p);
    hide Holding;
  }

  // ---------------------------------------------------------------- the whole exchange

  /** No call loses anything of the packet. */
  ghost predicate AllUndisturbed(l: Limits, crc: seq<Byte> -> Word, s: State, calls: seq<Call>, k: Key)
    requires Consistent(l, s)
  {
    forall j :: 0 <= j < |calls| ==> Undisturbed(l, crc, After(l, crc, s, calls[..j]), calls[j], k)
  }

  /** All fragments have arrived among the first `j` calls. */
  ghost predicate Arrived(calls: seq<Call>, p: Sent, j: nat)
    requires j <= |calls|
  {
    Got(calls[..j], p) == AllOf(p)
  }

  lemma OneCall(l: Limits, crc: seq<Byte> -> Word, s: State, calls: seq<Call>, p: Sent, j: nat)
    requires Consistent(l, s) && l.maxCompleted > 0 && Sendable(p) && j < |calls|
    requires OnlyOurs(calls, p, crc) && AllUndisturbed(l, crc, s, calls, p.key)
    requires Progress(After(l, crc, s, calls[..j]), p, crc, Got(calls[..j], p))
    ensures Progress(After(l, crc, s, calls[..j + 1]), p, crc, Got(calls[..j + 1], p))
    ensures KeyOf(calls[j]) == Some(p.key) ==>
              ReplyAt(l, crc, s, calls, j) == if !Arrived(calls, p, j) && Arrived(calls, p, j + 1) then Packet(p.body) else Nothing
    ensures KeyOf(calls[j]) != Some(p.key) ==> (Arrived(calls, p, j + 1) <==> Arrived(calls, p, j))
    ensures Arrived(calls, p, j) ==> Arrived(calls, p, j + 1)
  {
    hide Consistent, Progress, Undisturbed, Step, Sendable, AllOf, Got, After, Brings, KeyOf;
    var before := After(l, crc, s, calls[..j]);
    var got := Got(calls[..j], p);
    AfterNext(l, crc, s, calls, j);
    GotNext(calls, p, crc, j);
    WithinAll(before, p, crc, got);
    assert Undisturbed(l, crc, before, calls[j], p.key);
    if KeyOf(calls[j]) == Some(p.key) {
      assert Ours(calls[j], p, crc);
      var i :| Brings(calls[j], p, crc, i);
      BringsInside(calls[j], p, crc, i);
      OurStep(l, crc, before, calls[j], p, i, got);
    } else {
      OtherStep(l, crc, before, calls[j], p, got);
    }
  }

  lemma WithinAll(s: State, p: Sent, crc: seq<Byte> -> Word, got: set<nat>)
    requires Progress(s, p, crc, got)
    ensures got <= AllOf(p)
  {
  }

  lemma {:induction false} ProgressSoFar(l: Limits, crc: seq<Byte> -> Word, s: State, calls: seq<Call>, p: Sent, j: nat)
    requires Consistent(l, s) && l.maxCompleted > 0 && Sendable(p) && j <= |calls|
    requires p.key !in s.assemblies && p.key !in s.completed
    requires OnlyOurs(calls, p, crc) && AllUndisturbed(l, crc, s, calls, p.key)
    ensures Progress(After(l, crc, s, calls[..j]), p, crc, Got(calls[..j], p))
  {
    hide Consistent, AllUndisturbed, OnlyOurs, Sendable;
    if j > 0 {
      ProgressSoFar(l, crc, s, calls, p, j - 1);
      OneCall(l, crc, s, calls, p, j - 1);
    }
  }

  lemma {:induction false} ArrivalStays(l: Limits, crc: seq<Byte> -> Word, s: State, calls: seq<Call>, p: Sent, i: nat, j: nat)
    requires Consistent(l, s) && l.maxCompleted > 0 && Sendable(p) && i <= j <= |calls|
    requires p.key !in s.assemblies && p.key !in s.completed
    requires OnlyOurs(calls, p, crc) && AllUndisturbed(l, crc, s, calls, p.key)
    requires Arrived(calls, p, i)
    ensures Arrived(calls, p, j)
  {
    hide *;
    if i < j {
      ArrivalStays(l, crc, s, calls, p, i, j - 1);
      ProgressSoFar(l, crc, s, calls, p, j - 1);
      OneCall(l, crc, s, calls, p, j - 1);
    }
  }

  lemma GotAll(calls: seq<Call>, p: Sent, crc: seq<Byte> -> Word)
    requires AllBrought(calls, p, crc) && OnlyOurs(calls, p, crc)
    ensures Got(calls, p) == AllOf(p)
  {
    hide Got, Brings;
    GotExactly(calls, p, crc);
    forall i: nat | i in Got(calls, p) ensures i in AllOf(p) {
      var j :| 0 <= j < |calls| && Brings(calls[j], p, crc, i);
      BringsInside(calls[j], p, crc, i);
    }
  }

  lemma BringsInside(c: Call, p: Sent, crc: seq<Byte> -> Word, i: nat)
    requires Brings(c, p, crc, i)
    ensures i in AllOf(p) && KeyOf(c) == Some(p.key)
  {
  }

  lemma {:induction false} GotExactly(calls: seq<Call>, p: Sent, crc: seq<Byte> -> Word)
    requires OnlyOurs(calls, p, crc)
    ensures forall i: nat :: i in Got(calls, p) <==> BroughtBy(calls, p, crc, i)
    decreases |calls|
  {
    hide KeyOf, Brings, Got;
    if calls == [] {
      GotNothing(p);
    } else {
      var n := |calls| - 1;
      assert calls[..n + 1] == calls;
      assert OnlyOurs(calls[..n], p, crc);
      GotExactly(calls[..n], p, crc);
      GotNext(calls, p, crc, n);
      forall i: nat ensures BroughtBy(calls, p, crc, i) <==> BroughtBy(calls[..n], p, crc, i) || Brings(calls[n], p, crc, i) {
        if BroughtBy(calls[..n], p, crc, i) {
          var j :| 0 <= j < n && Brings(calls[..n][j], p, crc, i);
          assert Brings(calls[j], p, crc, i);
        }
        if BroughtBy(calls, p, crc, i) {
          var j :| 0 <= j < |calls| && Brings(calls[j], p, crc, i);
          assert j < n ==> calls[..n][j] == calls[j];
        }
      }
    }
  }

  /** What the next call adds to the fragments that have arrived. */
  lemma GotNext(calls: seq<Call>, p: Sent, crc: seq<Byte> -> Word, j: nat)
    requires j < |calls| && OnlyOurs(calls, p, crc)
    ensures forall i: nat :: i in Got(calls[..j + 1], p) <==> i in Got(calls[..j], p) || Brings(calls[j], p, crc, i)
    ensures KeyOf(calls[j]) != Some(p.key) ==> Got(calls[..j + 1], p) == Got(calls[..j], p)
    ensures forall i: nat :: Brings(calls[j], p, crc, i) ==> Got(calls[..j + 1], p) == Got(calls[..j], p) + {i}
  {
    hide DecodeFragment;
    assert calls[..j + 1][..j] == calls[..j] && calls[..j + 1][j] == calls[j];
    if KeyOf(calls[j]) == Some(p.key) {
      assert Ours(calls[j], p, crc);
    }
  }

  lemma AfterNext(l: Limits, crc: seq<Byte> -> Word, s: State, calls: seq<Call>, j: nat)
    requires Consistent(l, s) && j < |calls|
    ensures After(l, crc, s, calls[..j + 1]) == Step(l, crc, After(l, crc, s, calls[..j]), calls[j]).0
  {
    hide Consistent, Step;
    assert calls[..j + 1][..j] == calls[..j] && calls[..j + 1][j] == calls[j];
  }

  /** The call at `w` delivers the body; every other call about the packet returns nothing. */
  ghost predicate DeliveredOnceAt(l: Limits, crc: seq<Byte> -> Word, s: State, calls: seq<Call>, p: Sent, w: nat)
    requires Consistent(l, s) && w < |calls|
  {
    && KeyOf(calls[w]) == Some(p.key)
    && forall j :: 0 <= j < |calls| && KeyOf(calls[j]) == Some(p.key) ==>
         ReplyAt(l, crc, s, calls, j) == if j == w then Packet(p.body) else Nothing
  }

  /** There is a first moment at which everything has arrived. */
  lemma {:induction false} FirstArrival(calls: seq<Call>, p: Sent, n: nat) returns (w: nat)
    requires n <= |calls| && Arrived(calls, p, n) && !Arrived(calls, p, 0)
    ensures w < n && !Arrived(calls, p, w) && Arrived(calls, p, w + 1)
    decreases n
  {
    hide *;
    if Arrived(calls, p, n - 1) {
      w := FirstArrival(calls, p, n - 1);
    } else {
      w := n - 1;
    }
  }

  /**
   * Round trip. The fragments of a body may arrive in any order, with any duplicates, and mixed with
   * any other traffic, malformed or not: when all have arrived and nothing was lost to a limit, exactly
   * one call returns the body, namely the first by which all had arrived, and the others return nothing.
   */
  lemma RoundTrip(l: Limits, crc: seq<Byte> -> Word, s: State, calls: seq<Call>, p: Sent) returns (w: nat)
    requires Consistent(l, s) && LimitsOk(l) && Sendable(p)
    requires p.key !in s.assemblies && p.key !in s.completed
    requires OnlyOurs(calls, p, crc)
    requires AllBrought(calls, p, crc)
    requires AllUndisturbed(l, crc, s, calls, p.key)
    ensures w < |calls| && DeliveredOnceAt(l, crc, s, calls, p, w)
    ensures Arrived(calls, p, w + 1) && !Arrived(calls, p, w)
  {
    hide Consistent, Progress, Undisturbed, Step, Sendable;
    GotAll(calls, p, crc);
    assert calls[..|calls|] == calls && calls[..0] == [];
    assert 0 in AllOf(p);
    hide AllOf, Got;
    assert Got([], p) == {} by { GotNothing(p); }
    w := FirstArrival(calls, p, |calls|);
    forall j | 0 <= j < |calls|
      ensures KeyOf(calls[j]) == Some(p.key) ==> ReplyAt(l, crc, s, calls, j) == if j == w then Packet(p.body) else Nothing
      ensures j == w ==> KeyOf(calls[j]) == Some(p.key)
    {
      ProgressSoFar(l, crc, s, calls, p, j);
      OneCall(l, crc, s, calls, p, j);
      if j > w {
        ArrivalStays(l, crc, s, calls, p, w + 1, j);
      } else if j < w && Arrived(calls, p, j + 1) {
        ArrivalStays(l, crc, s, calls, p, j + 1, w);
      }
    }
  }

  lemma GotNothing(p: Sent)
    ensures Got([], p) == {}
  {
  }

  // ---------------------------------------------------------------- enough room and time

  /** Everything stored is about the keys `ks` and not older than `start`. */
  ghost predicate Calm(s: State, ks: set<Key>, start: real) {
    && s.assemblies.Keys <= ks && s.completed.Keys <= ks
    && (forall k :: k in s.assemblies ==> s.assemblies[k].created >= start)
    && (forall k :: k in s.completed ==> s.completed[k] >= start)
  }

  /** Limits under which `ks` many packets at once never hit one. */
  ghost predicate Roomy(l: Limits, ks: set<Key>) {
    |ks| <= l.maxAssemblies && |ks| <= l.maxCompleted && MAX_PACKET_BYTES * |ks| <= l.maxBytes
  }

  lemma {:induction false} KeepsAll(order: seq<Key>, completed: map<Key, real>, deadline: real)
    requires forall k :: k in order ==> k in completed && completed[k] >= deadline
    ensures KeepAfter(order, completed, deadline) == order
  {
    if order != [] {
      KeepsAll(order[..|order| - 1], completed, deadline);
      assert order == order[..|order| - 1] + [order[|order| - 1]];
    }
  }

  lemma NothingExpires(l: Limits, s: State, ks: set<Key>, start: real, now: real)
    requires Consistent(l, s) && Calm(s, ks, start) && now - l.timeout <= start
    ensures Prune(l, s, now) == s.(nextPrune := Prune(l, s, now).nextPrune)
  {
    hide AssembliesOk, KeepAfter, NoDuplicates;
    KeepsAll(s.order, s.completed, now - l.timeout);
  }

  lemma {:induction false} OneMissing(fragments: map<nat, seq<Byte>>, i: nat, n: nat)
    requires forall j :: j in fragments ==> |fragments[j]| <= CHUNK_SIZE
    requires i !in fragments && i < n
    ensures ChunkBytes(fragments, n) <= CHUNK_SIZE * (n - 1)
  {
    if i < n - 1 {
      OneMissing(fragments, i, n - 1);
    } else {
      ChunkBytesBound(fragments, n - 1);
    }
  }

  /** An incomplete assembly leaves room for one more chunk below the packet limit. */
  lemma IncompleteBytes(a: Assembly)
    requires AssemblyOk(a) && |a.fragments| < a.count
    ensures a.byteCount + CHUNK_SIZE <= MAX_PACKET_BYTES
  {
    assert |a.fragments.Keys| == |a.fragments|;
    if Below(a.count) <= a.fragments.Keys {
      SubsetSize(Below(a.count), a.fragments.Keys);
    } else {
      var i :| i in Below(a.count) && i !in a.fragments.Keys;
      OneMissing(a.fragments, i, a.count);
    }
  }

  lemma {:induction false} TotalBound(assemblies: map<Key, Assembly>)
    requires forall k :: k in assemblies ==> assemblies[k].byteCount <= MAX_PACKET_BYTES
    ensures TotalBytes(assemblies) <= MAX_PACKET_BYTES * |assemblies.Keys|
    decreases |assemblies|
  {
    if assemblies != map[] {
      var k :| k in assemblies;
      TotalWithout(assemblies, k);
      TotalBound(assemblies - {k});
      assert (assemblies - {k}).Keys == assemblies.Keys - {k};
    }
  }

  lemma RoomForOne(l: Limits, s: State, ks: set<Key>, start: real, k: Key, f: Fragment)
    requires Consistent(l, s) && Calm(s, ks, start) && Roomy(l, ks)
    requires k in ks && k !in s.completed && |f.chunk| <= CHUNK_SIZE
    ensures RoomFor(l, s, k, f)
  {
    hide TotalBytes, AssemblyOk, CompletedOk;
    forall x | x in s.assemblies ensures s.assemblies[x].byteCount + CHUNK_SIZE <= MAX_PACKET_BYTES {
      IncompleteBytes(s.assemblies[x]);
    }
    BytesForOne(s.assemblies, ks, k);
  }

  lemma BytesForOne(assemblies: map<Key, Assembly>, ks: set<Key>, k: Key)
    requires forall x :: x in assemblies ==> assemblies[x].byteCount + CHUNK_SIZE <= MAX_PACKET_BYTES
    requires assemblies.Keys <= ks && k in ks
    ensures TotalBytes(assemblies) + CHUNK_SIZE <= MAX_PACKET_BYTES * |ks|
    ensures k !in assemblies ==> |assemblies| < |ks|
  {
    hide TotalBytes;
    var rest := assemblies - {k};
    TotalMinus(assemblies, k);
    TotalBound(rest);
    assert rest.Keys <= ks - {k};
    SubsetSize(rest.Keys, ks - {k});
    assert |ks - {k}| == |ks| - 1;
    assert |rest.Keys| == |rest|;
    assert k !in assemblies ==> rest == assemblies;
  }

  lemma {:induction false} DistinctFit(order: seq<Key>, ks: set<Key>)
    requires NoDuplicates(order) && forall k :: k in order ==> k in ks
    ensures |order| <= |ks|
    decreases |order|
  {
    if order != [] {
      var last := order[|order| - 1];
      assert last !in order[..|order| - 1];
      DistinctFit(order[..|order| - 1], ks - {last});
    }
  }

  lemma NothingPushedOut(l: Limits, s: State, ks: set<Key>, key: Key, now: real)
    requires CompletedOk(l, s.completed, s.order) && s.completed.Keys <= ks && key in ks && key !in s.completed && |ks| <= l.maxCompleted
    ensures Remember(l, s, key, now) == s.(order := s.order + [key], completed := s.completed[key := now])
  {
    hide NoDuplicates;
    AppendNew(s.order, key);
    DistinctFit(s.order + [key], ks);
  }

  /** What closing an assembly does, when nothing is pushed out. */
  lemma CalmClose(l: Limits, crc: seq<Byte> -> Word, s: State, key: Key, a: Assembly, now: real, ks: set<Key>, start: real)
    requires CompletedOk(l, s.completed, s.order) && AssemblyOk(a) && Calm(s, ks, start) && |ks| <= l.maxCompleted
    requires key in ks && key !in s.completed && a.created >= start && now >= start
    ensures var t := Close(l, crc, s, key, a, now).0; Calm(t, ks, start) && s.completed.Keys <= t.completed.Keys
  {
    hide AssemblyOk, CompletedOk, Remember, Join;
    if |a.fragments| == a.count {
      NoneMissing(a);
      DropIsCalm(s, key, ks, start);
      NothingPushedOut(l, Drop(s, key), ks, key, now);
      hide Drop;
    }
  }

  lemma DropIsCalm(s: State, key: Key, ks: set<Key>, start: real)
    requires Calm(s, ks, start)
    ensures Calm(Drop(s, key), ks, start) && Drop(s, key).completed == s.completed && Drop(s, key).order == s.order
  {
  }

  lemma CalmInsert(l: Limits, crc: seq<Byte> -> Word, s: State, key: Key, a: Assembly, f: Fragment, now: real, ks: set<Key>, start: real)
    requires CompletedOk(l, s.completed, s.order) && AssemblyOk(a) && Calm(s, ks, start) && |ks| <= l.maxCompleted
    requires WellFormed(f) && f.count == a.count
    requires key in ks && key !in s.completed && a.created >= start && now >= start
    ensures var t := Insert(l, crc, s, key, a, f, now).0; Calm(t, ks, start) && s.completed.Keys <= t.completed.Keys
  {
    hide AssemblyOk, CompletedOk, Close, WellFormed, TotalBytes;
    if f.index in a.fragments {
      CalmClose(l, crc, s, key, a, now, ks, start);
    } else {
      ExtendedOk(a, f);
      CalmClose(l, crc, s, key, Extended(a, f), now, ks, start);
    }
  }

  lemma CalmAccept(l: Limits, crc: seq<Byte> -> Word, s: State, key: Key, f: Fragment, now: real, ks: set<Key>, start: real)
    requires Consistent(l, s) && Calm(s, ks, start) && |ks| <= l.maxCompleted && WellFormed(f)
    requires key in ks && start <= now && now - l.timeout <= start
    ensures var t := Accept(l, crc, s, key, f, now).0; Calm(t, ks, start) && s.completed.Keys <= t.completed.Keys
  {
    NothingExpires(l, s, ks, start, now);
    var q := Prune(l, s, now);
    PruneKeepsOk(l, s, now);
    OrderFacts(l, q);
    CompletedFacts(l, q);
    hide Consistent, AssemblyOk, CompletedOk, WellFormed, Insert, Prune;
    if key in q.completed {
    } else if key in q.assemblies {
      if q.assemblies[key].count == f.count {
        CalmInsert(l, crc, q, key, q.assemblies[key], f, now, ks, start);
      }
    } else {
      NewAssemblyOk(f, now);
      CalmInsert(l, crc, q, key, NewAssembly(f, now), f, now, ks, start);
    }
  }

  lemma CalmStep(l: Limits, crc: seq<Byte> -> Word, s: State, c: Call, ks: set<Key>, start: real, k: Key)
    requires Consistent(l, s) && Calm(s, ks, start) && Roomy(l, ks) && k in ks
    requires KeyOf(c).Some? ==> KeyOf(c).value in ks
    requires start <= c.now && c.now - l.timeout <= start
    ensures Calm(Step(l, crc, s, c).0, ks, start) && Undisturbed(l, crc, s, c, k)
  {
    hide Consistent, Accept, Prune, DecodeFragment, WellFormed, RoomFor, Calm;
    NothingExpires(l, s, ks, start, c.now);
    DecodedIsWellFormed(c.payload);
    if KeyOf(c).Some? {
      var f := DecodeFragment(c.payload).value;
      CalmAccept(l, crc, s, KeyOf(c).value, f, c.now, ks, start);
      ChunkFits(f);
      var p := Prune(l, s, c.now);
      if KeyOf(c) == Some(k) && k !in p.completed {
        PruneKeepsOk(l, s, c.now);
        CalmIgnoresClock(s, p, ks, start);
        RoomForOne(l, p, ks, start, k, f);
      }
    }
  }

  lemma ChunkFits(f: Fragment)
    requires WellFormed(f)
    ensures |f.chunk| <= CHUNK_SIZE
  {
  }

  lemma CalmIgnoresClock(s: State, p: State, ks: set<Key>, start: real)
    requires Calm(s, ks, start) && p == s.(nextPrune := p.nextPrune)
    ensures Calm(p, ks, start)
  {
  }

  lemma {:induction false} CalmSoFar(l: Limits, crc: seq<Byte> -> Word, s: State, calls: seq<Call>, ks: set<Key>,
                                     start: real, k: Key, j: nat)
    requires Consistent(l, s) && Calm(s, ks, start) && Roomy(l, ks) && k in ks && j <= |calls|
    requires InTime(l, calls, ks, start)
    ensures Calm(After(l, crc, s, calls[..j]), ks, start)
  {
    hide Consistent, Calm, Roomy, Step, Undisturbed, After, KeyOf;
    if j == 0 {
      AfterNone(l, crc, s, calls);
    } else {
      CalmSoFar(l, crc, s, calls, ks, start, k, j - 1);
      CalmStep(l, crc, After(l, crc, s, calls[..j - 1]), calls[j - 1], ks, start, k);
      AfterNext(l, crc, s, calls, j - 1);
    }
  }

  lemma AfterNone(l: Limits, crc: seq<Byte> -> Word, s: State, calls: seq<Call>)
    requires Consistent(l, s)
    ensures After(l, crc, s, calls[..0]) == s
  {
  }

  /** All calls are about the keys `ks` and come within one timeout. */
  ghost predicate InTime(l: Limits, calls: seq<Call>, ks: set<Key>, start: real) {
    forall j :: 0 <= j < |calls| ==>
      && (KeyOf(calls[j]).Some? ==> KeyOf(calls[j]).value in ks)
      && start <= calls[j].now && calls[j].now - l.timeout <= start
  }

  lemma RoomyIsUndisturbed(l: Limits, crc: seq<Byte> -> Word, s: State, calls: seq<Call>, ks: set<Key>, start: real, k: Key)
    requires Consistent(l, s) && Calm(s, ks, start) && Roomy(l, ks) && k in ks
    requires InTime(l, calls, ks, start)
    ensures AllUndisturbed(l, crc, s, calls, k)
  {
    hide Consistent, Calm, Roomy, Step, Undisturbed, After, KeyOf;
    forall j | 0 <= j < |calls| ensures Undisturbed(l, crc, After(l, crc, s, calls[..j]), calls[j], k) {
      CalmSoFar(l, crc, s, calls, ks, start, k, j);
      CalmStep(l, crc, After(l, crc, s, calls[..j]), calls[j], ks, start, k);
    }
  }

  /**
   * The same from a new assembler, under conditions a sender can check: all traffic is about at most
   * as many packets as the limits provide for, and comes within one timeout.
   */
  lemma RoundTripWithinLimits(l: Limits, crc: seq<Byte> -> Word, calls: seq<Call>, p: Sent, ks: set<Key>, start: real) returns (w: nat)
    requires LimitsOk(l) && Sendable(p) && p.key in ks && Roomy(l, ks)
    requires InTime(l, calls, ks, start)
    requires OnlyOurs(calls, p, crc) && AllBrought(calls, p, crc)
    ensures Consistent(l, State(map[], map[], [], 0.0))
    ensures w < |calls| && DeliveredOnceAt(l, crc, State(map[], map[], [], 0.0), calls, p, w)
  {
    NewIsConsistent(l);
    hide Consistent, Sendable, OnlyOurs, AllBrought, DeliveredOnceAt, Arrived, InTime, Roomy, AllUndisturbed, After, KeyOf;
    RoomyIsUndisturbed(l, crc, State(map[], map[], [], 0.0), calls, ks, start, p.key);
    w := RoundTrip(l, crc, State(map[], map[], [], 0.0), calls, p);
  }

  lemma NewIsConsistent(l: Limits)
    ensures Consistent(l, State(map[], map[], [], 0.0))
  {
    assert TotalBytes(map[]) == 0;
  }
}
