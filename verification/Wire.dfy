/** The framing both ends of the audio link share: a 16-byte little-endian header and an opaque payload. */
module Wire {

  type Byte = b: int | 0 <= b < 256

  const MAGIC: seq<Byte> := [0xa5, 0xa5, 0x5a, 0x5a]
  const HEADER_SIZE := 16
  const FILL := 0x12345678

  datatype Packet = Packet(kind: int, version: int, fill: int, payload: seq<Byte>)

  function Low(n: int): Byte { n % 256 }

  function LE16(n: int): (s: seq<Byte>)
    ensures |s| == 2
  {
    [Low(n), Low(n / 256)]
  }

  function LE32(n: int): (s: seq<Byte>)
    ensures |s| == 4
  {
    LE16(n % 65536) + LE16(n / 65536)
  }

  function U16(s: seq<Byte>, i: nat): (n: int)
    requires i + 2 <= |s|
    ensures 0 <= n < 65536
  {
    var low: int, high: int := s[i], s[i + 1];
    low + 256 * high
  }

  function U32(s: seq<Byte>, i: nat): int
    requires i + 4 <= |s|
  {
    U16(s, i) + 65536 * U16(s, i + 2)
  }

  function Sum(s: seq<Byte>): nat {
    if s == [] then 0 else s[0] + Sum(s[1..])
  }

  /** `sum(payload) & 0xFFFF` */
  function Checksum(s: seq<Byte>): int {
    Sum(s) % 65536
  }

  /** What fits the header fields. */
  predicate Encodable(p: Packet) {
    0 <= p.kind < 65536 && 0 <= p.version < 65536 && 0 <= p.fill < 0x1_0000_0000 && |p.payload| < 65536
  }

  function Header(checksum: int, kind: int, size: int, version: int, fill: int): (s: seq<Byte>)
    ensures |s| == HEADER_SIZE
  {
    MAGIC + LE16(checksum) + LE16(kind) + LE16(size) + LE16(version) + LE32(fill)
  }

  function Encode(p: Packet): seq<Byte> {
    Header(Checksum(p.payload), p.kind, |p.payload|, p.version, p.fill) + p.payload
  }

  /** The bytes of a packet sequence, back to back. */
  function EncodeAll(ps: seq<Packet>): seq<Byte> {
    if ps == [] then [] else Encode(ps[0]) + EncodeAll(ps[1..])
  }

  lemma Unpack16(n: int)
    requires 0 <= n < 65536
    ensures U16(LE16(n), 0) == n
  {
  }

  /** The header fields read back as written. */
  lemma HeaderFields(checksum: int, kind: int, size: int, version: int, fill: int, rest: seq<Byte>)
    requires 0 <= checksum < 65536 && 0 <= kind < 65536 && 0 <= size < 65536 && 0 <= version < 65536
    requires 0 <= fill < 0x1_0000_0000
    ensures var b := Header(checksum, kind, size, version, fill) + rest;
            && b[..4] == MAGIC && U16(b, 4) == checksum && U16(b, 6) == kind && U16(b, 8) == size
            && U16(b, 10) == version && U32(b, 12) == fill && b[HEADER_SIZE..] == rest
  {
    var b := Header(checksum, kind, size, version, fill) + rest;
    Unpack16(checksum);
    Unpack16(kind);
    Unpack16(size);
    Unpack16(version);
    Unpack16(fill % 65536);
    Unpack16(fill / 65536);
    assert b[4..6] == LE16(checksum);
    assert b[6..8] == LE16(kind);
    assert b[8..10] == LE16(size);
    assert b[10..12] == LE16(version);
    assert b[12..14] == LE16(fill % 65536);
    assert b[14..16] == LE16(fill / 65536);
    At16(b, 4);
    At16(b, 6);
    At16(b, 8);
    At16(b, 10);
    At16(b, 12);
    At16(b, 14);
  }

  /** The bytes of the command that starts a capture, and of a short audio packet. */
  lemma KnownBytes()
    ensures Encode(Packet(0x108, 0x100, FILL, []))
            == [0xa5, 0xa5, 0x5a, 0x5a, 0, 0, 0x08, 0x01, 0, 0, 0x00, 0x01, 0x78, 0x56, 0x34, 0x12]
    ensures Encode(Packet(0x110, 0x100, FILL, [7, 250]))
            == [0xa5, 0xa5, 0x5a, 0x5a, 0x01, 0x01, 0x10, 0x01, 2, 0, 0x00, 0x01, 0x78, 0x56, 0x34, 0x12, 7, 250]
  {
    assert Sum([7, 250]) == 7 + Sum([250]) by { assert [7, 250][1..] == [250]; }
    assert Sum([250]) == 250 by { assert [250][1..] == []; }
  }

  lemma Repack16(b: seq<Byte>, i: nat)
    requires i + 2 <= |b|
    ensures LE16(U16(b, i)) == b[i..i + 2]
  {
    var low: int, high: int := b[i], b[i + 1];
    assert (low + 256 * high) % 256 == low && (low + 256 * high) / 256 == high;
  }

  /** Conversely a header is the one its fields give. */
  lemma HeaderOfFields(b: seq<Byte>)
    requires |b| >= HEADER_SIZE && b[..4] == MAGIC
    ensures Header(U16(b, 4), U16(b, 6), U16(b, 8), U16(b, 10), U32(b, 12)) == b[..HEADER_SIZE]
    ensures 0 <= U32(b, 12) < 0x1_0000_0000
  {
    Repack16(b, 4);
    Repack16(b, 6);
    Repack16(b, 8);
    Repack16(b, 10);
    Repack16(b, 12);
    Repack16(b, 14);
    var low, high := U16(b, 12), U16(b, 14);
    assert U32(b, 12) % 65536 == low && U32(b, 12) / 65536 == high;
    hide U16, LE16;
    assert LE32(U32(b, 12)) == b[12..14] + b[14..16];
    assert b[..HEADER_SIZE] == b[..4] + b[4..6] + b[6..8] + b[8..10] + b[10..12] + (b[12..14] + b[14..16]);
  }

  lemma At16(b: seq<Byte>, i: nat)
    requires i + 2 <= |b|
    ensures U16(b, i) == U16(b[i..i + 2], 0)
  {
  }
}
