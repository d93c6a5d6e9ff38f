// What each call of the assembler answers, and what it leaves behind (mavlink/application.py).

module ApplicationReplies {
  import opened Prelude
  import opened ApplicationCodec
  import opened ApplicationAssembler

  // ---------------------------------------------------------------- forgetting

  /** Older than the timeout at the time. */
  predicate Overdue(l: Limits, since: real, now: real) {
    now - since > l.timeout
  }

  /** Pruning happens when its time has come, and then forgets exactly what is overdue. */
  lemma PruneForgetsOverdue(l: Limits, s: State, now: real)
    requires Consistent(l, s)
    ensures var p := Prune(l, s, now); var due := now >= s.nextPrune;
            && (!due ==> p == s)
            && (forall k :: k in p.assemblies <==> k in s.assemblies && !(due && Overdue(l, s.assemblies[k].created, now)))
            && (forall k :: k in p.assemblies ==> p.assemblies[k] == s.assemblies[k])
            && (forall k :: k in p.completed <==> k in s.completed && !(due && Overdue(l, s.completed[k], now)))
            && (forall k :: k in p.completed ==> p.completed[k] == s.completed[k])
            && (due ==> now < p.nextPrune || l.timeout <= 0.0)
            && (due ==> p.nextPrune <= now + 1.0 && p.nextPrune <= now + l.timeout)
            && (due ==> p.nextPrune == now + 1.0 || p.nextPrune == now + l.timeout)
  {
    hide AssembliesOk, KeepAfter;
  }

  /** What is kept of the completed packets stays in the order of completion. */
  lemma {:induction false} KeptInOrder(order: seq<Key>, completed: map<Key, real>, deadline: real)
    requires NoDuplicates(order)
    ensures var kept := KeepAfter(order, completed, deadline);
            && (forall k :: k in kept <==> k in order && k in completed && completed[k] >= deadline)
            && (forall i, j :: 0 <= i < j < |order| && order[i] in kept && order[j] in kept ==> ComesBefore(kept, order[i], order[j]))
  {
    KeptOrder(order, completed, deadline);
    if order != [] {
      var n := |order| - 1;
      KeptInOrder(order[..n], completed, deadline);
      var kept, part := KeepAfter(order, completed, deadline), KeepAfter(order[..n], completed, deadline);
      KeptOrder(order[..n], completed, deadline);
      hide NoDuplicates;
      forall i, j | 0 <= i < j < |order| && order[i] in kept && order[j] in kept ensures ComesBefore(kept, order[i], order[j]) {
        LaterInOrder(order, part, kept, i, j);
      }
    }
  }

  lemma LaterInOrder(order: seq<Key>, part: seq<Key>, kept: seq<Key>, i: nat, j: nat)
    requires NoDuplicates(order) && i < j < |order|
    requires kept == part || kept == part + [order[|order| - 1]]
    requires forall k :: k in part ==> k in order[..|order| - 1]
    requires order[i] in kept && order[j] in kept
    requires j < |order| - 1 ==> order[i] in part && order[j] in part && ComesBefore(part, order[i], order[j])
    requires order[i] in kept && i < |order| - 1 ==> order[i] in part
    ensures ComesBefore(kept, order[i], order[j])
  {
    var n := |order| - 1;
    if j < n {
      var a, b :| 0 <= a < b < |part| && part[a] == order[i] && part[b] == order[j];
      assert kept[a] == order[i] && kept[b] == order[j];
    } else {
      assert order[n] !in order[..n];
      assert kept == part + [order[n]];
      var a :| 0 <= a < |part| && part[a] == order[i];
      assert kept[a] == order[i] && kept[|part|] == order[j];
    }
  }

  ghost predicate ComesBefore(s: seq<Key>, x: Key, y: Key) {
    exists a, b :: 0 <= a < b < |s| && s[a] == x && s[b] == y
  }

  // ---------------------------------------------------------------- completing

  /** The last `n` members, or all of them. */
  function Newest(s: seq<Key>, n: nat): seq<Key> {
    s[if |s| > n then |s| - n else 0..]
  }

  lemma NewestOfRest(s: seq<Key>, n: nat)
    requires |s| > n
    ensures Newest(s[1..], n) == Newest(s, n)
  {
  }

  /** Of the completed packets, the newest are remembered, as many as allowed; the rest is forgotten. */
  lemma {:induction false} TrimKeepsNewest(order: seq<Key>, completed: map<Key, real>, max: nat)
    ensures var (kept, left) := Trim(order, completed, max);
            && kept == Newest(order, max)
            && (forall k :: k in left ==> k in completed && left[k] == completed[k])
    decreases |order|
  {
    if |order| > max {
      NewestOfRest(order, max);
      TrimKeepsNewest(order[1..], completed - {order[0]}, max);
      hide Newest;
    }
  }

  /** The packet is remembered as completed now, after all others; the oldest beyond the limit are forgotten. */
  ghost predicate CompletedNow(l: Limits, p: State, t: State, key: Key, now: real) {
    && t.order == Newest(p.order + [key], l.maxCompleted)
    && (forall k :: k in t.completed <==> k in t.order)
    && (forall k :: k in t.completed ==>
          if k == key then t.completed[k] == now else k in p.completed && t.completed[k] == p.completed[k])
  }

  lemma RememberIs(l: Limits, s: State, key: Key, now: real)
    requires CompletedOk(l, s.completed, s.order) && key !in s.completed
    ensures CompletedNow(l, s, Remember(l, s, key, now), key, now)
    ensures Remember(l, s, key, now).assemblies == s.assemblies && Remember(l, s, key, now).nextPrune == s.nextPrune
  {
    hide NoDuplicates, Trim, Newest;
    AppendNew(s.order, key);
    TrimKeeps(s.order + [key], s.completed[key := now], l.maxCompleted);
    TrimKeepsNewest(s.order + [key], s.completed[key := now], l.maxCompleted);
  }

  // ---------------------------------------------------------------- one fragment

  /** The chunks received for the packet, this one included. */
  function Chunks(p: State, key: Key, f: Fragment): map<nat, seq<Byte>> {
    (if key in p.assemblies then p.assemblies[key].fragments else map[])[f.index := f.chunk]
  }

  /** The fragment belongs to a packet in flight of the same shape, or a new packet may be opened. */
  predicate Admitted(l: Limits, p: State, key: Key, f: Fragment) {
    && key !in p.completed
    && if key in p.assemblies then p.assemblies[key].count == f.count && p.assemblies[key].checksum == f.checksum
       else |p.assemblies| < l.maxAssemblies
  }

  /** Another chunk was received at this place before. */
  predicate Contradicts(p: State, key: Key, f: Fragment) {
    key in p.assemblies && f.index in p.assemblies[key].fragments && p.assemblies[key].fragments[f.index] != f.chunk
  }

  predicate Repeats(p: State, key: Key, f: Fragment) {
    key in p.assemblies && f.index in p.assemblies[key].fragments && p.assemblies[key].fragments[f.index] == f.chunk
  }

  /** There are not enough bytes left for a chunk that is new. */
  ghost predicate OverBudget(l: Limits, p: State, key: Key, f: Fragment) {
    && !(key in p.assemblies && f.index in p.assemblies[key].fragments)
    && TotalBytes(p.assemblies) + |f.chunk| > l.maxBytes
  }

  /** The fragment is added to the packet. */
  ghost predicate Taken(l: Limits, p: State, key: Key, f: Fragment) {
    Admitted(l, p, key, f) && !Contradicts(p, key, f) && !OverBudget(l, p, key, f)
  }

  /** With this fragment, every chunk of the packet is there. */
  predicate Completes(p: State, key: Key, f: Fragment) {
    forall i :: 0 <= i < f.count ==> i in Chunks(p, key, f)
  }

  /** The packet in flight is given up; nothing else changes. */
  ghost predicate GivenUp(p: State, t: State, key: Key) {
    && key !in t.assemblies
    && (forall k :: k != key ==> (k in t.assemblies <==> k in p.assemblies))
    && (forall k :: k in t.assemblies ==> k in p.assemblies && t.assemblies[k] == p.assemblies[k])
    && t.completed == p.completed && t.order == p.order && t.nextPrune == p.nextPrune
  }

  /** The packet in flight now holds this chunk, too; nothing else changes. */
  ghost predicate Kept(p: State, t: State, key: Key, f: Fragment, now: real) {
    && key in t.assemblies
    && t.assemblies[key].count == f.count && t.assemblies[key].checksum == f.checksum
    && t.assemblies[key].fragments == Chunks(p, key, f)
    && t.assemblies[key].created == (if key in p.assemblies then p.assemblies[key].created else now)
    && (forall k :: k != key ==> (k in t.assemblies <==> k in p.assemblies))
    && (forall k :: k in t.assemblies && k != key ==> k in p.assemblies && t.assemblies[k] == p.assemblies[k])
    && t.completed == p.completed && t.order == p.order && t.nextPrune == p.nextPrune
  }

  /** The packet leaves flight and is completed; nothing else changes. */
  ghost predicate Delivered(l: Limits, p: State, t: State, key: Key, now: real) {
    && key !in t.assemblies
    && (forall k :: k != key ==> (k in t.assemblies <==> k in p.assemblies))
    && (forall k :: k in t.assemblies ==> k in p.assemblies && t.assemblies[k] == p.assemblies[k])
    && CompletedNow(l, p, t, key, now) && t.nextPrune == p.nextPrune
  }

  lemma DropGivesUp(p: State, key: Key)
    ensures GivenUp(p, Drop(p, key), key)
  {
  }

  /** The chunk count tells whether every index is there. */
  lemma FullMeans(a: Assembly)
    requires AssemblyOk(a)
    ensures |a.fragments| == a.count <==> forall i :: 0 <= i < a.count ==> i in a.fragments
  {
    if |a.fragments| == a.count {
      NoneMissing(a);
    }
    if forall i :: 0 <= i < a.count ==> i in a.fragments {
      assert Below(a.count) <= a.fragments.Keys;
      SubsetSize(Below(a.count), a.fragments.Keys);
      NotTooMany(a);
      assert |a.fragments.Keys| == |a.fragments|;
    }
  }

  lemma CloseIs(l: Limits, crc: seq<Byte> -> Word, s: State, key: Key, a: Assembly, now: real)
    requires AssemblyOk(a) && CompletedOk(l, s.completed, s.order) && key !in s.completed
    ensures var (t, reply) := Close(l, crc, s, key, a, now);
            var full := forall i :: 0 <= i < a.count ==> i in a.fragments;
            && (reply == Nothing <==> !full)
            && (reply == Failed(BadChecksum) <==> full && crc(Join(a.fragments, a.count)) != a.checksum)
            && (reply.Packet? <==> full && crc(Join(a.fragments, a.count)) == a.checksum)
            && (reply.Packet? ==> reply.body == Join(a.fragments, a.count) && Delivered(l, s, t, key, now))
            && (reply.Failed? ==> reply == Failed(BadChecksum) && GivenUp(s, t, key))
            && (reply == Nothing ==> t == s.(assemblies := s.assemblies[key := a]))
  {
    hide Remember, Drop, AssemblyOk, CompletedOk, GivenUp, Delivered, Join;
    FullMeans(a);
    if |a.fragments| == a.count {
      DropGivesUp(s, key);
      RememberDelivers(l, s, key, now);
    }
  }

  lemma RememberDelivers(l: Limits, s: State, key: Key, now: real)
    requires CompletedOk(l, s.completed, s.order) && key !in s.completed
    ensures Delivered(l, s, Remember(l, Drop(s, key), key, now), key, now)
  {
    RememberIs(l, Drop(s, key), key, now);
    hide Remember, CompletedOk, Newest;
  }

  /**
   * One well-formed fragment, after pruning: for each answer, exactly when it is given, and what becomes of the
   * packet. A body is handed out only if every chunk is there and the checksum of the whole is the one announced.
   */
  lemma AcceptAnswers(l: Limits, crc: seq<Byte> -> Word, s: State, key: Key, f: Fragment, now: real)
    requires Consistent(l, s) && WellFormed(f)
    ensures var p := Prune(l, s, now); var (t, reply) := Accept(l, crc, s, key, f, now);
            var chunks := Chunks(p, key, f);
            && (reply == Failed(Mismatch) <==> key !in p.completed && key in p.assemblies && !Admitted(l, p, key, f))
            && (reply == Failed(TooManyAssemblies) <==> key !in p.completed && key !in p.assemblies && !Admitted(l, p, key, f))
            && (reply == Failed(ConflictingDuplicate) <==> Admitted(l, p, key, f) && Contradicts(p, key, f))
            && (reply == Failed(ByteBudget) <==> Admitted(l, p, key, f) && OverBudget(l, p, key, f))
            && (reply == Failed(BadChecksum) <==>
                  Taken(l, p, key, f) && Completes(p, key, f) && crc(Join(chunks, f.count)) != f.checksum)
            && (reply.Packet? <==>
                  Taken(l, p, key, f) && Completes(p, key, f) && crc(Join(chunks, f.count)) == f.checksum)
            && (reply == Nothing <==> key in p.completed || (Taken(l, p, key, f) && !Completes(p, key, f)))
            && (reply.Packet? ==> reply.body == Join(chunks, f.count) && Delivered(l, p, t, key, now))
            && (reply == Nothing ==> if key in p.completed then t == p else Kept(p, t, key, f, now))
            && (reply.Failed? ==> if reply.error == TooManyAssemblies then t == p else GivenUp(p, t, key))
  {
    PruneKeepsOk(l, s, now);
    var p := Prune(l, s, now);
    OrderFacts(l, p);
    InsideOk(l, p);
    hide Consistent, AssemblyOk, Prune, Insert, WellFormed, TotalBytes, CompletedOk, Drop;
    DropGivesUp(p, key);
    if key in p.completed {
    } else if key in p.assemblies {
      var a := p.assemblies[key];
      if a.count == f.count && a.checksum == f.checksum {
        InsertAnswers(l, crc, p, key, a, f, now);
      }
    } else if |p.assemblies| < l.maxAssemblies {
      NewAssemblyOk(f, now);
      InsertAnswers(l, crc, p, key, NewAssembly(f, now), f, now);
    }
    hide Join, Delivered, Kept, GivenUp;
  }

  lemma InsideOk(l: Limits, s: State)
    requires Consistent(l, s)
    ensures CompletedOk(l, s.completed, s.order) && s.assemblies.Keys !! s.completed.Keys
  {
  }

  lemma InsertAnswers(l: Limits, crc: seq<Byte> -> Word, p: State, key: Key, a: Assembly, f: Fragment, now: real)
    requires AssemblyOk(a) && WellFormed(f) && f.count == a.count && f.checksum == a.checksum
    requires CompletedOk(l, p.completed, p.order) && key !in p.completed
    requires if key in p.assemblies then p.assemblies[key] == a else a == NewAssembly(f, now)
    ensures var (t, reply) := Insert(l, crc, p, key, a, f, now); var chunks := Chunks(p, key, f);
            && (reply == Failed(ConflictingDuplicate) <==> Contradicts(p, key, f))
            && (reply == Failed(ByteBudget) <==> OverBudget(l, p, key, f))
            && (Contradicts(p, key, f) || OverBudget(l, p, key, f) ==> GivenUp(p, t, key))
            && (!Contradicts(p, key, f) && !OverBudget(l, p, key, f) ==>
                  && (reply == Nothing <==> !Completes(p, key, f))
                  && (reply == Failed(BadChecksum) <==> Completes(p, key, f) && crc(Join(chunks, f.count)) != f.checksum)
                  && (reply.Packet? <==> Completes(p, key, f) && crc(Join(chunks, f.count)) == f.checksum)
                  && (reply.Packet? ==> reply.body == Join(chunks, f.count) && Delivered(l, p, t, key, now))
                  && (reply.Failed? ==> reply == Failed(BadChecksum) && GivenUp(p, t, key))
                  && (reply == Nothing ==> Kept(p, t, key, f, now)))
  {
    hide AssemblyOk, TotalBytes, Close, WellFormed, CompletedOk, Delivered, GivenUp, Drop;
    DropGivesUp(p, key);
    if f.index in a.fragments {
      if a.fragments[f.index] == f.chunk {
        assert a.fragments == Chunks(p, key, f);
        CloseIs(l, crc, p, key, a, now);
        hide Join;
      }
    } else if TotalBytes(p.assemblies) + |f.chunk| <= l.maxBytes {
      ExtendedOk(a, f);
      assert Extended(a, f).fragments == Chunks(p, key, f);
      CloseIs(l, crc, p, key, Extended(a, f), now);
      hide Join;
    }
  }

  /** One payload: a malformed one changes nothing; a fragment is taken under its source and packet id. */
  lemma PayloadAnswers(l: Limits, crc: seq<Byte> -> Word, s: State, payload: seq<Byte>,
                       system: Option<Byte>, component: Option<Byte>, now: real)
    requires Consistent(l, s)
    ensures var (t, reply) := AcceptPayload(l, crc, s, payload, system, component, now);
            var decoded := DecodeFragment(payload);
            && (decoded.Err? ==> t == s && reply == Failed(decoded.error))
            && (decoded.Ok? ==>
                  && WellFormed(decoded.value)
                  && var source := (if system.Some? then system.value else 0, if component.Some? then component.value else 0);
                     (t, reply) == Accept(l, crc, s, Key(source.0, source.1, decoded.value.packetId), decoded.value, now))
            && (reply.Packet? ==> decoded.Ok? && crc(reply.body) == decoded.value.checksum)
  {
    DecodedIsWellFormed(payload);
    hide Consistent, WellFormed, Accept;
    if DecodeFragment(payload).Ok? {
      var f := DecodeFragment(payload).value;
      AcceptAnswers(l, crc, s, Key(system.Or(0), component.Or(0), f.packetId), f, now);
    }
    hide DecodeFragment;
  }

  // ---------------------------------------------------------------- the wire format

  /** Network byte order. */
  lemma TwoBytes(a: Byte, b: Byte)
    ensures BigEndian(0x100 * a + b, 2) == [a, b]
  {
    assert BigEndian(a, 1) == BigEndian(0, 0) + [a];
    assert (0x100 * a + b) / 256 == a;
  }

  lemma FourBytes(a: Byte, b: Byte, c: Byte, d: Byte)
    ensures BigEndian(0x100_0000 * a + 0x1_0000 * b + 0x100 * c + d, 4) == [a, b, c, d]
  {
    TwoBytes(a, b);
    var high := 0x100 * a + b;
    assert (0x100 * high + c) / 256 == high;
    assert BigEndian(0x100 * high + c, 3) == [a, b] + [c];
    assert (0x1_0000 * high + 0x100 * c + d) / 256 == 0x100 * high + c;
    hide BigEndian;
    OneMoreByte(0x1_0000 * high + 0x100 * c + d, 3);
  }

  lemma OneMoreByte(v: nat, width: nat)
    ensures BigEndian(v, width + 1) == BigEndian(v / 256, width) + [v % 256]
  {
  }

  function Number(a: nat, b: nat, c: nat, d: nat): nat {
    0x100_0000 * a + 0x1_0000 * b + 0x100 * c + d
  }

  /** A payload, byte by byte. */
  lemma PayloadBytes(a: Byte, b: Byte, c: Byte, d: Byte, v: Byte, w: Byte, x: Byte, y: Byte, index: Byte, count: Byte, chunk: seq<Byte>)
    requires |chunk| < 256
    ensures Pack(Fragment(Number(a, b, c, d), index, count, Number(v, w, x, y), chunk)) ==
            [77, 65, 1, 0] + [a, b, c, d] + [0, index] + [0, count] + [0, |chunk|] + [v, w, x, y] + chunk
  {
    hide BigEndian;
    FourBytes(a, b, c, d);
    FourBytes(v, w, x, y);
    TwoBytes(0, index);
    TwoBytes(0, count);
    TwoBytes(0, |chunk|);
    var f := Fragment(Number(a, b, c, d), index, count, Number(v, w, x, y), chunk);
    PackIs(f, [a, b, c, d], [0, index], [0, count], [0, |chunk|], [v, w, x, y]);
  }

  lemma PackIs(f: Fragment, id: seq<Byte>, index: seq<Byte>, count: seq<Byte>, length: seq<Byte>, checksum: seq<Byte>)
    requires BigEndian(f.packetId, 4) == id && BigEndian(f.index, 2) == index && BigEndian(f.count, 2) == count
    requires BigEndian(|f.chunk|, 2) == length && BigEndian(f.checksum, 4) == checksum
    ensures Pack(f) == [77, 65, 1, 0] + id + index + count + length + checksum + f.chunk
  {
    hide BigEndian;
    assert MAGIC + [VERSION, 0] == [77, 65, 1, 0];
  }

  /** Which of the checks a payload that does not decode fails first. */
  lemma DecodeRefusals(raw: seq<Byte>)
    ensures var r := DecodeFragment(raw);
            && (r == Err(MissingHeader) <==> |raw| < 18)
            && (|raw| >= 18 ==>
                  var signed := raw[0] == 77 && raw[1] == 65;
                  var id, index, count, length :=
                    FromBigEndian(raw[4..8]), FromBigEndian(raw[8..10]), FromBigEndian(raw[10..12]), FromBigEndian(raw[12..14]);
                  var ordered := 1 <= count <= 72 && index < count;
                  && (r == Err(BadMagic) <==> !signed)
                  && (r == Err(BadVersion) <==> signed && raw[2] != 1)
                  && (r == Err(BadPacketId) <==> signed && raw[2] == 1 && id == 0)
                  && (r == Err(BadOrder) <==> signed && raw[2] == 1 && id > 0 && !ordered)
                  && (r == Err(BadLength) <==> signed && raw[2] == 1 && id > 0 && ordered && (length > 231 || 18 + length > |raw|))
                  && (r.Ok? <==> signed && raw[2] == 1 && id > 0 && ordered && length <= 231 && 18 + length <= |raw|))
  {
    if |raw| >= 18 {
      assert raw[..2] == MAGIC <==> raw[0] == 77 && raw[1] == 65;
      FromBigEndianRoundTrip(raw[4..8]);
      Widths();
      hide FromBigEndian;
    }
  }
}
