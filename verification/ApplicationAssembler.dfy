// Reassembly of application packets under count, byte and time limits (mavlink/application.py).

module ApplicationAssembler {
  import opened Prelude
  import opened ApplicationCodec

  datatype Key = Key(system: Byte, component: Byte, packetId: Word)

  datatype Assembly = Assembly(count: nat, checksum: Word, created: real, fragments: map<nat, seq<Byte>>, byteCount: nat)

  datatype Limits = Limits(timeout: real, maxAssemblies: nat, maxBytes: nat, maxCompleted: nat)

  /** `order` lists the completed keys, oldest first. */
  datatype State = State(assemblies: map<Key, Assembly>, completed: map<Key, real>, order: seq<Key>, nextPrune: real)

  datatype Reply = Nothing | Packet(body: seq<Byte>) | Failed(error: ProtocolError)

  /** What the constructor checks. */
  predicate LimitsOk(l: Limits) {
    l.timeout > 0.0 && l.maxAssemblies > 0 && l.maxBytes > 0 && l.maxCompleted > 0
  }

  // ---------------------------------------------------------------- counting bytes

  function ChunkBytes(fragments: map<nat, seq<Byte>>, n: nat): nat {
    if n == 0 then 0
    else ChunkBytes(fragments, n - 1) + (if n - 1 in fragments then |fragments[n - 1]| else 0)
  }

  ghost function TotalBytes(assemblies: map<Key, Assembly>): nat {
    if assemblies == map[] then 0
    else
      var k :| k in assemblies;
      assemblies[k].byteCount + TotalBytes(assemblies - {k})
  }

  lemma {:induction false} TotalWithout(assemblies: map<Key, Assembly>, k: Key)
    requires k in assemblies
    ensures TotalBytes(assemblies) == assemblies[k].byteCount + TotalBytes(assemblies - {k})
    decreases |assemblies|
  {
    var x :| x in assemblies && TotalBytes(assemblies) == assemblies[x].byteCount + TotalBytes(assemblies - {x});
    if x != k {
      TotalWithout(assemblies - {x}, k);
      TotalWithout(assemblies - {k}, x);
      assert assemblies - {x} - {k} == assemblies - {k} - {x};
    }
  }

  lemma TotalUpdate(assemblies: map<Key, Assembly>, k: Key, a: Assembly)
    ensures TotalBytes(assemblies[k := a]) == TotalBytes(assemblies - {k}) + a.byteCount
  {
    TotalWithout(assemblies[k := a], k);
    assert assemblies[k := a] - {k} == assemblies - {k};
  }

  lemma {:induction false} TotalSubset(part: map<Key, Assembly>, all: map<Key, Assembly>)
    requires part.Keys <= all.Keys && forall k :: k in part ==> part[k] == all[k]
    ensures TotalBytes(part) <= TotalBytes(all)
    decreases |all|
  {
    if part != map[] {
      var k :| k in part;
      TotalWithout(part, k);
      TotalWithout(all, k);
      TotalSubset(part - {k}, all - {k});
    }
  }

  lemma {:induction false} ChunkBytesAdd(fragments: map<nat, seq<Byte>>, i: nat, chunk: seq<Byte>, n: nat)
    requires i !in fragments
    ensures ChunkBytes(fragments[i := chunk], n) == ChunkBytes(fragments, n) + (if i < n then |chunk| else 0)
  {
    if n > 0 {
      ChunkBytesAdd(fragments, i, chunk, n - 1);
    }
  }

  lemma {:induction false} ChunkBytesBound(fragments: map<nat, seq<Byte>>, n: nat)
    requires forall i :: i in fragments ==> |fragments[i]| <= CHUNK_SIZE
    ensures ChunkBytes(fragments, n) <= CHUNK_SIZE * n
  {
    if n > 0 {
      ChunkBytesBound(fragments, n - 1);
    }
  }

  // ---------------------------------------------------------------- what every state keeps

  ghost function Below(n: nat): (s: set<nat>)
    ensures |s| == n && forall i: nat :: i in s <==> i < n
  {
    if n == 0 then {} else Below(n - 1) + {n - 1}
  }

  /** All indices are in range; the byte count is the sum of the stored chunks. */
  ghost predicate AssemblyOk(a: Assembly) {
    && 1 <= a.count <= MAX_FRAGMENT_COUNT
    && (forall i :: i in a.fragments ==> i < a.count && |a.fragments[i]| <= CHUNK_SIZE)
    && a.byteCount == ChunkBytes(a.fragments, a.count)
  }

  ghost predicate AssembliesOk(l: Limits, assemblies: map<Key, Assembly>) {
    && (forall k :: k in assemblies ==> AssemblyOk(assemblies[k]) && 0 < |assemblies[k].fragments| < assemblies[k].count)
    && |assemblies| <= l.maxAssemblies
    && TotalBytes(assemblies) <= l.maxBytes
  }

  ghost predicate CompletedOk(l: Limits, completed: map<Key, real>, order: seq<Key>) {
    && NoDuplicates(order)
    && (forall k :: k in order <==> k in completed)
    && |order| <= l.maxCompleted
  }

  /** Every packet in flight is incomplete, and none of them is also completed. */
  ghost predicate Consistent(l: Limits, s: State) {
    && AssembliesOk(l, s.assemblies)
    && CompletedOk(l, s.completed, s.order)
    && s.assemblies.Keys !! s.completed.Keys
  }

  /** As many distinct indices below `count` as there are: none is missing. */
  lemma NoneMissing(a: Assembly)
    requires AssemblyOk(a) && |a.fragments| == a.count
    ensures forall i :: 0 <= i < a.count ==> i in a.fragments
  {
    assert a.fragments.Keys <= Below(a.count);
    SubsetSize(a.fragments.Keys, Below(a.count));
    assert |a.fragments.Keys| == |a.fragments|;
    forall i | 0 <= i < a.count ensures i in a.fragments {
      assert i in Below(a.count);
    }
  }

  lemma NotTooMany(a: Assembly)
    requires AssemblyOk(a)
    ensures |a.fragments| <= a.count
  {
    SubsetSize(a.fragments.Keys, Below(a.count));
    assert |a.fragments.Keys| == |a.fragments|;
  }

  // ---------------------------------------------------------------- the steps

  function KeepAfter(order: seq<Key>, completed: map<Key, real>, deadline: real): seq<Key> {
    if order == [] then []
    else
      var rest := KeepAfter(order[..|order| - 1], completed, deadline);
      var k := order[|order| - 1];
      if k in completed && completed[k] >= deadline then rest + [k] else rest
  }

  /** Forgets what is older than the timeout, at most once a second. */
  function Prune(l: Limits, s: State, now: real): State {
    if now < s.nextPrune then s
    else
      var deadline := now - l.timeout;
      State(
        map k | k in s.assemblies && s.assemblies[k].created >= deadline :: s.assemblies[k],
        map k | k in s.completed && s.completed[k] >= deadline :: s.completed[k],
        KeepAfter(s.order, s.completed, deadline),
        now + (if l.timeout < 1.0 then l.timeout else 1.0))
  }

  function Drop(s: State, key: Key): State {
    s.(assemblies := s.assemblies - {key})
  }

  /** Forgets the oldest completed packets until at most `max` are left. */
  function Trim(order: seq<Key>, completed: map<Key, real>, max: nat): (seq<Key>, map<Key, real>)
    decreases |order|
  {
    if |order| <= max then (order, completed) else Trim(order[1..], completed - {order[0]}, max)
  }

  function Remember(l: Limits, s: State, key: Key, now: real): State {
    var (order, completed) := Trim(s.order + [key], s.completed[key := now], l.maxCompleted);
    s.(order := order, completed := completed)
  }

  ghost function Close(l: Limits, crc: seq<Byte> -> Word, s: State, key: Key, a: Assembly, now: real): (State, Reply)
    requires AssemblyOk(a)
  {
    if |a.fragments| != a.count then (s.(assemblies := s.assemblies[key := a]), Nothing)
    else
      NoneMissing(a);
      var body := Join(a.fragments, a.count);
      if crc(body) != a.checksum then (Drop(s, key), Failed(BadChecksum))
      else (Remember(l, Drop(s, key), key, now), Packet(body))
  }

  function Extended(a: Assembly, f: Fragment): Assembly {
    a.(fragments := a.fragments[f.index := f.chunk], byteCount := a.byteCount + |f.chunk|)
  }

  ghost function Insert(l: Limits, crc: seq<Byte> -> Word, s: State, key: Key, a: Assembly, f: Fragment, now: real): (State, Reply)
    requires AssemblyOk(a) && WellFormed(f) && f.count == a.count
  {
    if f.index in a.fragments then
      if a.fragments[f.index] != f.chunk then (Drop(s, key), Failed(ConflictingDuplicate))
      else Close(l, crc, s, key, a, now)
    else if TotalBytes(s.assemblies) + |f.chunk| > l.maxBytes then (Drop(s, key), Failed(ByteBudget))
    else
      ExtendedOk(a, f);
      Close(l, crc, s, key, Extended(a, f), now)
  }

  lemma ExtendedOk(a: Assembly, f: Fragment)
    requires AssemblyOk(a) && WellFormed(f) && f.count == a.count && f.index !in a.fragments
    ensures AssemblyOk(Extended(a, f))
    ensures |Extended(a, f).fragments| == |a.fragments| + 1
  {
    ChunkBytesAdd(a.fragments, f.index, f.chunk, a.count);
    assert Extended(a, f).fragments.Keys == a.fragments.Keys + {f.index};
    assert |a.fragments.Keys| == |a.fragments|;
    assert |Extended(a, f).fragments.Keys| == |Extended(a, f).fragments|;
  }

  function NewAssembly(f: Fragment, now: real): Assembly {
    Assembly(f.count, f.checksum, now, map[], 0)
  }

  lemma NewAssemblyOk(f: Fragment, now: real)
    requires WellFormed(f)
    ensures AssemblyOk(NewAssembly(f, now))
  {
    NoBytes(f.count);
  }

  lemma {:induction false} NoBytes(n: nat)
    ensures ChunkBytes(map[], n) == 0
  {
    if n > 0 {
      NoBytes(n - 1);
    }
  }

  ghost function Accept(l: Limits, crc: seq<Byte> -> Word, s: State, key: Key, f: Fragment, now: real): (State, Reply)
    requires Consistent(l, s) && WellFormed(f)
  {
    var p := Prune(l, s, now);
    if key in p.completed then (p, Nothing)
    else if key in p.assemblies then
      var a := p.assemblies[key];
      if a.count != f.count || a.checksum != f.checksum then (Drop(p, key), Failed(Mismatch))
      else Insert(l, crc, p, key, a, f, now)
    else if |p.assemblies| >= l.maxAssemblies then (p, Failed(TooManyAssemblies))
    else
      NewAssemblyOk(f, now);
      Insert(l, crc, p, key, NewAssembly(f, now), f, now)
  }

  // ---------------------------------------------------------------- every step keeps them

  lemma {:induction false} KeptOrder(order: seq<Key>, completed: map<Key, real>, deadline: real)
    requires NoDuplicates(order)
    ensures var kept := KeepAfter(order, completed, deadline);
            && NoDuplicates(kept)
            && |kept| <= |order|
            && (forall k :: k in kept <==> k in order && k in completed && completed[k] >= deadline)
  {
    if order != [] {
      var n := |order| - 1;
      assert order[n] !in order[..n];
      KeptOrder(order[..n], completed, deadline);
      assert forall k :: k in order <==> k in order[..n] || k == order[n];
    }
  }

  lemma FewerAssemblies(l: Limits, part: map<Key, Assembly>, all: map<Key, Assembly>)
    requires AssembliesOk(l, all) && part.Keys <= all.Keys && forall k :: k in part ==> part[k] == all[k]
    ensures AssembliesOk(l, part)
  {
    hide TotalBytes, AssemblyOk;
    SubsetSize(part.Keys, all.Keys);
    assert |part.Keys| == |part| && |all.Keys| == |all|;
    TotalSubset(part, all);
  }

  lemma PruneKeepsOk(l: Limits, s: State, now: real)
    requires Consistent(l, s)
    ensures Consistent(l, Prune(l, s, now))
  {
    hide AssembliesOk, AssemblyOk, TotalBytes, KeepAfter, NoDuplicates;
    var p := Prune(l, s, now);
    if now >= s.nextPrune {
      KeptOrder(s.order, s.completed, now - l.timeout);
      FewerAssemblies(l, p.assemblies, s.assemblies);
    }
  }

  lemma DropKeepsOk(l: Limits, s: State, key: Key)
    requires Consistent(l, s)
    ensures Consistent(l, Drop(s, key))
  {
    hide AssembliesOk, CompletedOk;
    FewerAssemblies(l, Drop(s, key).assemblies, s.assemblies);
  }

  lemma RememberKeepsOk(l: Limits, s: State, key: Key, now: real)
    requires Consistent(l, s) && key !in s.assemblies && key !in s.completed
    ensures Consistent(l, Remember(l, s, key, now))
  {
    hide AssembliesOk, CompletedOk;
    RememberKeepsOrder(l, s, key, now);
  }

  lemma RememberKeepsOrder(l: Limits, s: State, key: Key, now: real)
    requires CompletedOk(l, s.completed, s.order) && key !in s.completed
    ensures var r := Remember(l, s, key, now);
            CompletedOk(l, r.completed, r.order) && r.completed.Keys <= s.completed.Keys + {key}
  {
    hide NoDuplicates;
    AppendNew(s.order, key);
    TrimKeeps(s.order + [key], s.completed[key := now], l.maxCompleted);
  }

  lemma AppendNew(order: seq<Key>, key: Key)
    requires NoDuplicates(order) && key !in order
    ensures NoDuplicates(order + [key]) && forall k :: k in order + [key] <==> k in order || k == key
  {
  }

  lemma {:induction false} TrimKeeps(order: seq<Key>, completed: map<Key, real>, max: nat)
    requires NoDuplicates(order) && forall k :: k in order <==> k in completed
    ensures var (kept, left) := Trim(order, completed, max);
            && NoDuplicates(kept) && |kept| <= max
            && (forall k :: k in kept <==> k in left)
            && left.Keys <= completed.Keys
    decreases |order|
  {
    if |order| > max {
      assert order == [order[0]] + order[1..];
      assert order[0] !in order[1..];
      TrimKeeps(order[1..], completed - {order[0]}, max);
    }
  }

  lemma StoreKeepsAssemblies(l: Limits, assemblies: map<Key, Assembly>, key: Key, a: Assembly)
    requires AssembliesOk(l, assemblies)
    requires AssemblyOk(a) && 0 < |a.fragments| < a.count
    requires key in assemblies || |assemblies| < l.maxAssemblies
    requires TotalBytes(assemblies - {key}) + a.byteCount <= l.maxBytes
    ensures AssembliesOk(l, assemblies[key := a])
  {
    hide TotalBytes, AssemblyOk;
    TotalUpdate(assemblies, key, a);
    UpdateSize(assemblies, key, a);
  }

  lemma UpdateSize<K, V>(m: map<K, V>, k: K, v: V)
    ensures |m[k := v]| == |m| + (if k in m then 0 else 1)
  {
    assert m[k := v].Keys == m.Keys + {k};
    assert |m[k := v].Keys| == |m[k := v]| && |m.Keys| == |m|;
  }

  lemma StoreKeepsOk(l: Limits, s: State, key: Key, a: Assembly)
    requires Consistent(l, s) && key !in s.completed
    requires AssemblyOk(a) && 0 < |a.fragments| < a.count
    requires key in s.assemblies || |s.assemblies| < l.maxAssemblies
    requires TotalBytes(s.assemblies - {key}) + a.byteCount <= l.maxBytes
    ensures Consistent(l, s.(assemblies := s.assemblies[key := a]))
  {
    hide AssembliesOk, CompletedOk, AssemblyOk, TotalBytes;
    StoreKeepsAssemblies(l, s.assemblies, key, a);
  }

  lemma CloseKeepsOk(l: Limits, crc: seq<Byte> -> Word, s: State, key: Key, a: Assembly, now: real)
    requires Consistent(l, s) && AssemblyOk(a) && key !in s.completed && 0 < |a.fragments|
    requires key in s.assemblies || |s.assemblies| < l.maxAssemblies
    requires TotalBytes(s.assemblies - {key}) + a.byteCount <= l.maxBytes
    ensures Consistent(l, Close(l, crc, s, key, a, now).0)
  {
    NotTooMany(a);
    hide Consistent, AssemblyOk, TotalBytes, Remember;
    if |a.fragments| != a.count {
      StoreKeepsOk(l, s, key, a);
    } else {
      DropKeepsOk(l, s, key);
      if Close(l, crc, s, key, a, now).1.Packet? {
        RememberKeepsOk(l, Drop(s, key), key, now);
      }
    }
  }

  lemma InsertKeepsOk(l: Limits, crc: seq<Byte> -> Word, s: State, key: Key, a: Assembly, f: Fragment, now: real)
    requires Consistent(l, s) && AssemblyOk(a) && WellFormed(f) && f.count == a.count && key !in s.completed
    requires if key in s.assemblies then s.assemblies[key] == a else a == NewAssembly(f, now) && |s.assemblies| < l.maxAssemblies
    ensures Consistent(l, Insert(l, crc, s, key, a, f, now).0)
  {
    hide Consistent, AssemblyOk, TotalBytes, Close, WellFormed;
    DropKeepsOk(l, s, key);
    BytesInside(l, s, key);
    if f.index in a.fragments {
      assert a.fragments.Keys != {};
      CloseKeepsOk(l, crc, s, key, a, now);
    } else if TotalBytes(s.assemblies) + |f.chunk| <= l.maxBytes {
      ExtendedOk(a, f);
      CloseKeepsOk(l, crc, s, key, Extended(a, f), now);
    }
  }

  lemma BytesInside(l: Limits, s: State, key: Key)
    requires Consistent(l, s)
    ensures TotalBytes(s.assemblies - {key}) + (if key in s.assemblies then s.assemblies[key].byteCount else 0)
            == TotalBytes(s.assemblies) <= l.maxBytes
  {
    hide TotalBytes, AssemblyOk, CompletedOk;
    TotalMinus(s.assemblies, key);
  }

  lemma TotalMinus(assemblies: map<Key, Assembly>, key: Key)
    ensures TotalBytes(assemblies - {key}) + (if key in assemblies then assemblies[key].byteCount else 0) == TotalBytes(assemblies)
  {
    hide TotalBytes;
    if key in assemblies {
      TotalWithout(assemblies, key);
    } else {
      assert assemblies - {key} == assemblies;
    }
  }

  /** Whatever arrives, well-formed, conflicting, over budget or late: every limit and balance holds. */
  lemma AcceptKeepsOk(l: Limits, crc: seq<Byte> -> Word, s: State, key: Key, f: Fragment, now: real)
    requires Consistent(l, s) && WellFormed(f)
    ensures Consistent(l, Accept(l, crc, s, key, f, now).0)
  {
    PruneKeepsOk(l, s, now);
    var p := Prune(l, s, now);
    if key in p.assemblies {
      assert AssemblyOk(p.assemblies[key]);
    }
    hide Consistent, AssemblyOk, Prune, Insert, WellFormed;
    if key in p.completed {
    } else if key in p.assemblies {
      DropKeepsOk(l, p, key);
      if p.assemblies[key].count == f.count && p.assemblies[key].checksum == f.checksum {
        InsertKeepsOk(l, crc, p, key, p.assemblies[key], f, now);
      }
    } else if |p.assemblies| < l.maxAssemblies {
      NewAssemblyOk(f, now);
      InsertKeepsOk(l, crc, p, key, NewAssembly(f, now), f, now);
    }
  }

  lemma EmptyAddsNothing(assemblies: map<Key, Assembly>, key: Key, a: Assembly)
    requires key !in assemblies && a.byteCount == 0
    ensures TotalBytes(assemblies[key := a]) == TotalBytes(assemblies)
  {
    hide TotalBytes;
    TotalUpdate(assemblies, key, a);
    assert assemblies - {key} == assemblies;
  }

  /** It makes no difference that a new, empty assembly is stored before its first fragment. */
  lemma EmptyAssemblyUnseen(l: Limits, crc: seq<Byte> -> Word, s: State, key: Key, a: Assembly, f: Fragment, now: real)
    requires AssemblyOk(a) && WellFormed(f) && f.count == a.count && key !in s.assemblies && a.byteCount == 0
    ensures Insert(l, crc, s.(assemblies := s.assemblies[key := a]), key, a, f, now) == Insert(l, crc, s, key, a, f, now)
  {
    hide AssemblyOk, WellFormed, TotalBytes, Close, Drop;
    EmptyAddsNothing(s.assemblies, key, a);
    DropOverwrites(s, key, a);
    CloseOverwrites(l, crc, s, key, a, a, now);
    if f.index !in a.fragments {
      ExtendedOk(a, f);
      CloseOverwrites(l, crc, s, key, a, Extended(a, f), now);
    }
  }

  lemma DropOverwrites(s: State, key: Key, stored: Assembly)
    ensures Drop(s.(assemblies := s.assemblies[key := stored]), key) == Drop(s, key)
  {
    assert s.assemblies[key := stored] - {key} == s.assemblies - {key};
  }

  /** What was stored under the key does not matter to the packet that is closed. */
  lemma CloseOverwrites(l: Limits, crc: seq<Byte> -> Word, s: State, key: Key, stored: Assembly, a: Assembly, now: real)
    requires AssemblyOk(a)
    ensures Close(l, crc, s.(assemblies := s.assemblies[key := stored]), key, a, now) == Close(l, crc, s, key, a, now)
  {
    hide Remember, AssemblyOk, Drop;
    DropOverwrites(s, key, stored);
    assert s.assemblies[key := stored][key := a] == s.assemblies[key := a];
  }

  class Assembler {
    const limits: Limits
    const crc: seq<Byte> -> Word
    var assemblies: map<Key, Assembly>
    var completed: map<Key, real>
    var order: seq<Key>
    var inflightBytes: int
    var nextPruneAt: real

    ghost function View(): State
      reads this
    {
      State(assemblies, completed, order, nextPruneAt)
    }

    ghost predicate Balanced()
      reads `assemblies, `inflightBytes
    {
      inflightBytes == TotalBytes(assemblies)
    }

    ghost predicate Valid()
      reads this
    {
      LimitsOk(limits) && Consistent(limits, View()) && Balanced()
    }

    constructor (limits: Limits, crc: seq<Byte> -> Word)
      requires LimitsOk(limits)
      ensures Valid() && this.limits == limits && this.crc == crc && View() == State(map[], map[], [], 0.0)
    {
      this.limits, this.crc := limits, crc;
      assemblies, completed, order, inflightBytes, nextPruneAt := map[], map[], [], 0, 0.0;
    }

    /** Refuses limits that are not positive. */
    static method Create(limits: Limits, crc: seq<Byte> -> Word) returns (a: Assembler?)
      ensures a != null <==> LimitsOk(limits)
      ensures a != null ==> fresh(a) && a.Valid() && a.limits == limits && a.crc == crc && a.View() == State(map[], map[], [], 0.0)
    {
      if !LimitsOk(limits) {
        return null;
      }
      a := new Assembler(limits, crc);
    }

    method DiscardAssembly(key: Key)
      requires Balanced()
      modifies `assemblies, `inflightBytes
      ensures View() == Drop(old(View()), key) && Balanced()
    {
      hide TotalBytes;
      TotalMinus(assemblies, key);
      if key in assemblies {
        inflightBytes := inflightBytes - assemblies[key].byteCount;
      }
      assemblies := assemblies - {key};
    }

    method PruneLocked(now: real)
      requires Balanced()
      modifies `assemblies, `inflightBytes, `completed, `order, `nextPruneAt
      ensures View() == Prune(limits, old(View()), now) && Balanced()
    {
      hide TotalBytes, Balanced, KeepAfter, NoDuplicates;
      if now < nextPruneAt {
        return;
      }
      var deadline := now - limits.timeout;
      ExpireAssemblies(deadline);
      ExpireCompleted(deadline);
      nextPruneAt := now + (if limits.timeout < 1.0 then limits.timeout else 1.0);
    }

    method ExpireAssemblies(deadline: real)
      requires Balanced()
      modifies `assemblies, `inflightBytes
      ensures Balanced()
      ensures assemblies == map k | k in old(assemblies) && old(assemblies)[k].created >= deadline :: old(assemblies)[k]
    {
      hide TotalBytes, Balanced;
      ghost var before := assemblies;
      var expired := set k | k in assemblies && assemblies[k].created < deadline;
      var all := expired;
      while expired != {}
        invariant expired <= all
        invariant Balanced()
        invariant assemblies == before - (all - expired)
        decreases expired
      {
        var k :| k in expired;
        DiscardAssembly(k);
        expired := expired - {k};
      }
    }

    method ExpireCompleted(deadline: real)
      modifies `completed, `order
      ensures order == KeepAfter(old(order), old(completed), deadline)
      ensures completed == map k | k in old(completed) && old(completed)[k] >= deadline :: old(completed)[k]
    {
      ghost var before := completed;
      var expired := set k | k in completed && completed[k] < deadline;
      order := KeepAfter(order, completed, deadline);
      var all := expired;
      while expired != {}
        invariant expired <= all
        invariant completed == before - (all - expired)
        invariant order == KeepAfter(old(order), before, deadline)
        decreases expired
      {
        var k :| k in expired;
        completed := completed - {k};
        expired := expired - {k};
      }
    }

    method JoinChunks(a: Assembly) returns (body: seq<Byte>)
      requires forall i :: 0 <= i < a.count ==> i in a.fragments
      ensures body == Join(a.fragments, a.count)
    {
      body := [];
      for i := 0 to a.count
        invariant body == Join(a.fragments, i)
      {
        body := body + a.fragments[i];
      }
    }

    method RememberLocked(key: Key, now: real)
      modifies `completed, `order
      ensures View() == Remember(limits, old(View()), key, now)
    {
      completed := completed[key := now];
      order := order + [key];
      while |order| > limits.maxCompleted
        invariant Trim(order, completed, limits.maxCompleted)
                  == Trim(old(order) + [key], old(completed)[key := now], limits.maxCompleted)
      {
        completed := completed - {order[0]};
        order := order[1..];
      }
    }

    /** Finishes the packet if this was its last fragment. */
    method CloseLocked(key: Key, now: real) returns (reply: Reply)
      requires key in assemblies && AssemblyOk(assemblies[key]) && Balanced()
      requires key !in completed && key !in order
      modifies `assemblies, `inflightBytes, `completed, `order
      ensures (View(), reply) == Close(limits, crc, old(View()), key, old(assemblies)[key], now)
      ensures Balanced()
    {
      hide TotalBytes, AssemblyOk, Balanced, Remember;
      var a := assemblies[key];
      if |a.fragments| != a.count {
        assert assemblies[key := a] == assemblies;
        return Nothing;
      }
      NoneMissing(a);
      var body := JoinChunks(a);
      DiscardAssembly(key);
      if crc(body) != a.checksum {
        return Failed(BadChecksum);
      }
      RememberLocked(key, now);
      return Packet(body);
    }

    /** Adds the fragment to the stored assembly. */
    method InsertLocked(key: Key, f: Fragment, now: real) returns (reply: Reply)
      requires key in assemblies && AssemblyOk(assemblies[key]) && Balanced()
      requires WellFormed(f) && f.count == assemblies[key].count
      requires key !in completed && key !in order
      modifies `assemblies, `inflightBytes, `completed, `order
      ensures (View(), reply) == Insert(limits, crc, old(View()), key, old(assemblies)[key], f, now)
      ensures Balanced()
    {
      hide TotalBytes, AssemblyOk, WellFormed, Close;
      var a := assemblies[key];
      if f.index in a.fragments && a.fragments[f.index] != f.chunk {
        DiscardAssembly(key);
        return Failed(ConflictingDuplicate);
      }
      if f.index !in a.fragments {
        if inflightBytes + |f.chunk| > limits.maxBytes {
          DiscardAssembly(key);
          return Failed(ByteBudget);
        }
        ExtendedOk(a, f);
        TotalMinus(assemblies, key);
        TotalUpdate(assemblies, key, Extended(a, f));
        assemblies := assemblies[key := Extended(a, f)];
        inflightBytes := inflightBytes + |f.chunk|;
      }
      ghost var s := View();
      reply := CloseLocked(key, now);
      CloseOverwrites(limits, crc, old(View()), key, s.assemblies[key], s.assemblies[key], now);
      assert old(assemblies)[key := s.assemblies[key]] == s.assemblies;
    }

    /** One payload from the wire. A missing source id counts as 0. */
    method Accept(payload: seq<Byte>, system: Option<Byte>, component: Option<Byte>, now: real) returns (reply: Reply)
      requires Valid()
      modifies this
      ensures Valid()
      ensures (View(), reply) == AcceptPayload(limits, crc, old(View()), payload, system, component, now)
    {
      hide TotalBytes, AssemblyOk, WellFormed, Consistent, Insert, Prune, Balanced;
      var decoded := DecodeFragment(payload);
      if decoded.Err? {
        return Failed(decoded.error);
      }
      var f := decoded.value;
      DecodedIsWellFormed(payload);
      var key := Key(system.Or(0), component.Or(0), f.packetId);
      OrderFacts(limits, View());
      AcceptKeepsOk(limits, crc, View(), key, f, now);
      PruneKeepsOk(limits, View(), now);
      PruneLocked(now);
      OrderFacts(limits, View());
      if key in completed {
        return Nothing;
      }
      if key !in assemblies {
        if |assemblies| >= limits.maxAssemblies {
          return Failed(TooManyAssemblies);
        }
        ghost var p := View();
        NewAssemblyOk(f, now);
        EmptyAssemblyUnseen(limits, crc, p, key, NewAssembly(f, now), f, now);
        StoreEmpty(key, NewAssembly(f, now));
      } else if assemblies[key].count != f.count || assemblies[key].checksum != f.checksum {
        DiscardAssembly(key);
        return Failed(Mismatch);
      }
      reply := InsertLocked(key, f, now);
    }

    method StoreEmpty(key: Key, a: Assembly)
      requires Balanced() && key !in assemblies && a.byteCount == 0
      modifies `assemblies
      ensures View() == old(View()).(assemblies := old(assemblies)[key := a]) && Balanced()
    {
      TotalUpdate(assemblies, key, a);
      assert assemblies - {key} == assemblies;
      assemblies := assemblies[key := a];
    }

    method Clear()
      requires Valid()
      modifies this
      ensures Valid() && View() == State(map[], map[], [], 0.0)
    {
      assemblies, completed, order, inflightBytes, nextPruneAt := map[], map[], [], 0, 0.0;
    }
  }

  ghost function AcceptPayload(l: Limits, crc: seq<Byte> -> Word, s: State, payload: seq<Byte>,
                               system: Option<Byte>, component: Option<Byte>, now: real): (State, Reply)
    requires Consistent(l, s)
  {
    match DecodeFragment(payload)
    case Err(e) => (s, Failed(e))
    case Ok(f) =>
      DecodedIsWellFormed(payload);
      Accept(l, crc, s, Key(system.Or(0), component.Or(0), f.packetId), f, now)
  }

  lemma DecodedIsWellFormed(payload: seq<Byte>)
    ensures DecodeFragment(payload).Ok? ==> WellFormed(DecodeFragment(payload).value)
  {
  }

  lemma OrderFacts(l: Limits, s: State)
    requires Consistent(l, s)
    ensures NoDuplicates(s.order) && forall k :: k in s.order <==> k in s.completed
    ensures forall k :: k in s.assemblies ==> AssemblyOk(s.assemblies[k])
  {
  }
}
