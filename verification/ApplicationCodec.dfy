// Application packets cut into V2_EXTENSION payloads (mavlink/application.py). V2_EXTENSION is
// message 248 of the MAVLink common message set; its payload field has 249 bytes.

module ApplicationCodec {
  import opened Prelude

  type Byte = b: int | 0 <= b < 256
  type Word = w: int | 0 <= w < 0x1_0000_0000

  const PAYLOAD_SIZE := 249
  const MAGIC: seq<Byte> := [77, 65]
  const VERSION: Byte := 1
  const HEADER_SIZE := 18
  const CHUNK_SIZE := 231
  const MAX_FRAGMENT_COUNT := 72
  const MAX_PACKET_BYTES := 16632

  datatype ProtocolError =
    | EmptyPacket | PacketTooLarge
    | MissingHeader | BadMagic | BadVersion | BadPacketId | BadOrder | BadLength
    | TooManyAssemblies | Mismatch | ConflictingDuplicate | ByteBudget | BadChecksum

  datatype Fragment = Fragment(packetId: Word, index: nat, count: nat, checksum: Word, chunk: seq<Byte>)

  // ---------------------------------------------------------------- big-endian numbers

  function Power256(n: nat): (p: nat)
    ensures p > 0
  {
    if n == 0 then 1 else 256 * Power256(n - 1)
  }

  /** The `width` low bytes of `v`, most significant first. */
  function BigEndian(v: nat, width: nat): (s: seq<Byte>)
    ensures |s| == width
  {
    if width == 0 then [] else BigEndian(v / 256, width - 1) + [v % 256]
  }

  function FromBigEndian(s: seq<Byte>): nat {
    if s == [] then 0 else 256 * FromBigEndian(s[..|s| - 1]) + s[|s| - 1]
  }

  lemma {:induction false} BigEndianRoundTrip(v: nat, width: nat)
    requires v < Power256(width)
    ensures FromBigEndian(BigEndian(v, width)) == v
  {
    if width > 0 {
      BigEndianRoundTrip(v / 256, width - 1);
      var s := BigEndian(v, width);
      assert s[..width - 1] == BigEndian(v / 256, width - 1);
    }
  }

  lemma {:induction false} FromBigEndianRoundTrip(s: seq<Byte>)
    ensures FromBigEndian(s) < Power256(|s|)
    ensures BigEndian(FromBigEndian(s), |s|) == s
  {
    if s != [] {
      FromBigEndianRoundTrip(s[..|s| - 1]);
      var v := FromBigEndian(s);
      assert v / 256 == FromBigEndian(s[..|s| - 1]) && v % 256 == s[|s| - 1];
      assert s == s[..|s| - 1] + [s[|s| - 1]];
    }
  }

  lemma Widths()
    ensures Power256(2) == 0x1_0000 && Power256(4) == 0x1_0000_0000
  {
    assert Power256(1) == 256;
    assert Power256(3) == 0x100_0000;
  }

  // ---------------------------------------------------------------- one fragment

  /** What the encoder produces and the decoder accepts. */
  predicate WellFormed(f: Fragment) {
    && f.packetId > 0
    && 1 <= f.count <= MAX_FRAGMENT_COUNT
    && f.index < f.count
    && |f.chunk| <= CHUNK_SIZE
  }

  /** Magic, version, flags, packet id, index, count, chunk length, checksum; network byte order. */
  function Header(f: Fragment, flags: Byte): (h: seq<Byte>)
    ensures |h| == HEADER_SIZE
  {
    MAGIC + [VERSION, flags]
    + BigEndian(f.packetId, 4) + BigEndian(f.index, 2) + BigEndian(f.count, 2)
    + BigEndian(|f.chunk|, 2) + BigEndian(f.checksum, 4)
  }

  function Pack(f: Fragment): seq<Byte> {
    Header(f, 0) + f.chunk
  }

  function Padded(payload: seq<Byte>): (p: seq<Byte>)
    ensures |payload| <= PAYLOAD_SIZE ==> |p| == PAYLOAD_SIZE
  {
    payload + seq(if |payload| <= PAYLOAD_SIZE then PAYLOAD_SIZE - |payload| else 0, _ => 0)
  }

  function DecodeFragment(raw: seq<Byte>): Result<Fragment, ProtocolError> {
    if |raw| < HEADER_SIZE then Err(MissingHeader)
    else
      var packetId := FromBigEndian(raw[4..8]);
      var index := FromBigEndian(raw[8..10]);
      var count := FromBigEndian(raw[10..12]);
      var length := FromBigEndian(raw[12..14]);
      var checksum := FromBigEndian(raw[14..18]);
      if raw[..2] != MAGIC then Err(BadMagic)
      else if raw[2] != VERSION then Err(BadVersion)
      else if !(0 < packetId <= 0xFFFF_FFFF) then Err(BadPacketId)
      else if !(1 <= count <= MAX_FRAGMENT_COUNT) || index >= count then Err(BadOrder)
      else if length > CHUNK_SIZE || HEADER_SIZE + length > |raw| then Err(BadLength)
      else
        Ok(Fragment(packetId, index, count, LowWord(checksum), raw[HEADER_SIZE..HEADER_SIZE + length]))
  }

  function LowWord(v: nat): Word {
    v % 0x1_0000_0000
  }

  lemma HeaderFields(f: Fragment, flags: Byte)
    ensures var h := Header(f, flags);
            && h[..2] == MAGIC && h[2] == VERSION && h[3] == flags
            && h[4..8] == BigEndian(f.packetId, 4)
            && h[8..10] == BigEndian(f.index, 2)
            && h[10..12] == BigEndian(f.count, 2)
            && h[12..14] == BigEndian(|f.chunk|, 2)
            && h[14..18] == BigEndian(f.checksum, 4)
  {
  }

  lemma FieldsFit(f: Fragment)
    requires WellFormed(f)
    ensures FromBigEndian(BigEndian(f.packetId, 4)) == f.packetId
    ensures FromBigEndian(BigEndian(f.index, 2)) == f.index
    ensures FromBigEndian(BigEndian(f.count, 2)) == f.count
    ensures FromBigEndian(BigEndian(|f.chunk|, 2)) == |f.chunk|
    ensures FromBigEndian(BigEndian(f.checksum, 4)) == f.checksum
  {
    Widths();
    BigEndianRoundTrip(f.packetId, 4);
    BigEndianRoundTrip(f.index, 2);
    BigEndianRoundTrip(f.count, 2);
    BigEndianRoundTrip(|f.chunk|, 2);
    BigEndianRoundTrip(f.checksum, 4);
  }

  ghost predicate BeginsWith(raw: seq<Byte>, f: Fragment, flags: Byte) {
    Header(f, flags) + f.chunk <= raw
  }

  /** Exactly the payloads that begin with the header of a well-formed fragment and its chunk decode to it. */
  lemma DecodesExactly(raw: seq<Byte>, f: Fragment)
    ensures DecodeFragment(raw) == Ok(f) <==>
            WellFormed(f) && exists flags: Byte :: BeginsWith(raw, f, flags)
  {
    if WellFormed(f) && exists flags: Byte :: BeginsWith(raw, f, flags) {
      var flags: Byte :| BeginsWith(raw, f, flags);
      DecodesTo(raw, f, flags);
    }
    if DecodeFragment(raw) == Ok(f) {
      DecodedFrom(raw, f);
      assert BeginsWith(raw, f, raw[3]);
    }
  }

  lemma DecodesTo(raw: seq<Byte>, f: Fragment, flags: Byte)
    requires WellFormed(f) && Header(f, flags) + f.chunk <= raw
    ensures DecodeFragment(raw) == Ok(f)
  {
    hide Header, BigEndian, FromBigEndian;
    var h := Header(f, flags);
    HeaderFields(f, flags);
    FieldsFit(f);
    PrefixReads(raw, h, f.chunk);
    PrefixSlices(raw, h, 2, 4);
    PrefixSlices(raw, h, 4, 8);
    PrefixSlices(raw, h, 8, 10);
    PrefixSlices(raw, h, 10, 12);
    PrefixSlices(raw, h, 12, 14);
    PrefixSlices(raw, h, 14, 18);
    assert raw[..2] == raw[..HEADER_SIZE][..2];
  }

  lemma PrefixReads(raw: seq<Byte>, h: seq<Byte>, chunk: seq<Byte>)
    requires |h| == HEADER_SIZE && h + chunk <= raw
    ensures raw[..HEADER_SIZE] == h && raw[HEADER_SIZE..HEADER_SIZE + |chunk|] == chunk
  {
    assert raw[..HEADER_SIZE] == (h + chunk)[..HEADER_SIZE];
    assert raw[HEADER_SIZE..HEADER_SIZE + |chunk|] == (h + chunk)[HEADER_SIZE..];
  }

  lemma PrefixSlices(raw: seq<Byte>, h: seq<Byte>, from: nat, to: nat)
    requires |h| == HEADER_SIZE <= |raw| && raw[..HEADER_SIZE] == h && from < to <= HEADER_SIZE
    ensures raw[from..to] == h[from..to] && raw[from] == h[from]
  {
    assert raw[from..to] == raw[..HEADER_SIZE][from..to];
  }

  lemma DecodedFrom(raw: seq<Byte>, f: Fragment)
    requires DecodeFragment(raw) == Ok(f)
    ensures WellFormed(f) && |raw| >= HEADER_SIZE && Header(f, raw[3]) + f.chunk <= raw
  {
    hide BigEndian, FromBigEndian, Header;
    Widths();
    PieceRoundTrip(raw, 4, 8);
    PieceRoundTrip(raw, 8, 10);
    PieceRoundTrip(raw, 10, 12);
    PieceRoundTrip(raw, 12, 14);
    PieceRoundTrip(raw, 14, 18);
    Reassembles(raw, f);
  }

  lemma PieceRoundTrip(raw: seq<Byte>, from: nat, to: nat)
    requires from <= to <= |raw|
    ensures FromBigEndian(raw[from..to]) < Power256(to - from)
    ensures BigEndian(FromBigEndian(raw[from..to]), to - from) == raw[from..to]
  {
    FromBigEndianRoundTrip(raw[from..to]);
  }

  lemma Reassembles(raw: seq<Byte>, f: Fragment)
    requires HEADER_SIZE + |f.chunk| <= |raw| && raw[HEADER_SIZE..HEADER_SIZE + |f.chunk|] == f.chunk
    requires raw[..2] == MAGIC && raw[2] == VERSION
    requires raw[4..8] == BigEndian(f.packetId, 4) && raw[8..10] == BigEndian(f.index, 2)
    requires raw[10..12] == BigEndian(f.count, 2) && raw[12..14] == BigEndian(|f.chunk|, 2)
    requires raw[14..18] == BigEndian(f.checksum, 4)
    ensures Header(f, raw[3]) + f.chunk <= raw
  {
    hide BigEndian;
    var h := Header(f, raw[3]);
    HeaderFields(f, raw[3]);
    hide Header;
    assert raw[0..2] == raw[..2] == h[..2] == h[0..2];
    SamePiece(raw, h, 0, 2);
    SamePiece(raw, h, 4, 8);
    SamePiece(raw, h, 8, 10);
    SamePiece(raw, h, 10, 12);
    SamePiece(raw, h, 12, 14);
    SamePiece(raw, h, 14, 18);
    assert (h + f.chunk)[HEADER_SIZE..HEADER_SIZE + |f.chunk|] == f.chunk;
    SamePiece(raw, h + f.chunk, HEADER_SIZE, HEADER_SIZE + |f.chunk|);
  }

  lemma SamePiece(a: seq<Byte>, b: seq<Byte>, from: nat, to: nat)
    requires from <= to <= |a| && to <= |b| && a[from..to] == b[from..to]
    ensures forall k :: from <= k < to ==> a[k] == b[k]
  {
    forall k | from <= k < to ensures a[k] == b[k] {
      assert a[k] == a[from..to][k - from] == b[from..to][k - from] == b[k];
    }
  }

  lemma PaddedDecodes(f: Fragment)
    requires WellFormed(f)
    ensures DecodeFragment(Padded(Pack(f))) == Ok(f)
  {
    assert Header(f, 0) + f.chunk <= Padded(Pack(f));
    DecodesTo(Padded(Pack(f)), f, 0);
  }

  // ---------------------------------------------------------------- a whole packet

  /** Bodies that fit into a packet. */
  predicate Fits(body: seq<Byte>) {
    1 <= |body| <= MAX_PACKET_BYTES
  }

  function FragmentCount(body: seq<Byte>): nat {
    var n := (|body| + CHUNK_SIZE - 1) / CHUNK_SIZE;
    if n < 1 then 1 else n
  }

  /** The `index`-th slice of the body, cut short at its end. */
  function Chunk(body: seq<Byte>, index: nat): seq<Byte> {
    var from := if index * CHUNK_SIZE < |body| then index * CHUNK_SIZE else |body|;
    var to := if (index + 1) * CHUNK_SIZE < |body| then (index + 1) * CHUNK_SIZE else |body|;
    body[from..to]
  }

  function FragmentOf(packetId: Word, body: seq<Byte>, crc: seq<Byte> -> Word, index: nat): Fragment {
    Fragment(packetId, index, FragmentCount(body), crc(body), Chunk(body, index))
  }

  lemma FragmentsAreWellFormed(packetId: Word, body: seq<Byte>, crc: seq<Byte> -> Word, index: nat)
    requires packetId > 0 && Fits(body) && index < FragmentCount(body)
    ensures WellFormed(FragmentOf(packetId, body, crc, index))
    ensures |Chunk(body, index)| > 0
    ensures |Pack(FragmentOf(packetId, body, crc, index))| <= PAYLOAD_SIZE
  {
  }

  /** The chunks of indices below `n`, joined in index order. */
  function Join(chunks: map<nat, seq<Byte>>, n: nat): seq<Byte>
    requires forall i :: 0 <= i < n ==> i in chunks
  {
    if n == 0 then [] else Join(chunks, n - 1) + chunks[n - 1]
  }

  lemma CountCovers(body: seq<Byte>, n: nat)
    requires 0 < n <= FragmentCount(body)
    ensures (n - 1) * CHUNK_SIZE <= |body| <= FragmentCount(body) * CHUNK_SIZE
  {
  }

  /** The chunks of a body, joined, are the body. */
  lemma {:induction false} ChunksJoin(body: seq<Byte>, chunks: map<nat, seq<Byte>>, n: nat)
    requires n <= FragmentCount(body)
    requires forall i :: 0 <= i < n ==> i in chunks && chunks[i] == Chunk(body, i)
    ensures Join(chunks, n) == body[..if n * CHUNK_SIZE < |body| then n * CHUNK_SIZE else |body|]
  {
    if n > 0 {
      ChunksJoin(body, chunks, n - 1);
      var from := (n - 1) * CHUNK_SIZE;
      var to := if n * CHUNK_SIZE < |body| then n * CHUNK_SIZE else |body|;
      CountCovers(body, n);
      assert chunks[n - 1] == body[from..to];
      assert body[..from] + body[from..to] == body[..to];
    }
  }

  /** The encoder: the payloads of all fragments in index order, or why there are none. */
  method Encode(packetId: Word, body: seq<Byte>, crc: seq<Byte> -> Word) returns (r: Result<seq<seq<Byte>>, ProtocolError>)
    requires packetId > 0
    ensures r.Ok? <==> Fits(body)
    ensures r.Err? ==> r.error == if body == [] then EmptyPacket else PacketTooLarge
    ensures r.Ok? ==>
              && |r.value| == FragmentCount(body)
              && forall i :: 0 <= i < |r.value| ==>
                    |r.value[i]| <= PAYLOAD_SIZE
                    && DecodeFragment(Padded(r.value[i])) == Ok(FragmentOf(packetId, body, crc, i))
  {
    if body == [] {
      return Err(EmptyPacket);
    }
    if |body| > MAX_PACKET_BYTES {
      return Err(PacketTooLarge);
    }
    var count := FragmentCount(body);
    var checksum := crc(body);
    var fragments: seq<seq<Byte>> := [];
    for index := 0 to count
      invariant |fragments| == index
      invariant forall i :: 0 <= i < index ==>
                  |fragments[i]| <= PAYLOAD_SIZE
                  && DecodeFragment(Padded(fragments[i])) == Ok(FragmentOf(packetId, body, crc, i))
    {
      var f := Fragment(packetId, index, count, checksum, Chunk(body, index));
      FragmentsAreWellFormed(packetId, body, crc, index);
      PaddedDecodes(f);
      fragments := fragments + [Pack(f)];
    }
    return Ok(fragments);
  }
}
