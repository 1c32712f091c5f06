/** The host's incremental, resynchronising packet decoder. */
module Decoder {
  import opened Optional
  import opened Wire

  // ----- a byte-at-a-time reading of the protocol -----

  /** What the front of a buffer calls for. */
  datatype Step = Wait | Noise | BadLength | BadChecksum | Take(packet: Packet)

  function Next(buf: seq<Byte>, max: int): Step {
    if |buf| < 4 then (if buf <= MAGIC then Wait else Noise)
    else if buf[..4] != MAGIC then Noise
    else if |buf| < HEADER_SIZE then Wait
    else
      var size := U16(buf, 8);
      if size > max then BadLength
      else if |buf| < HEADER_SIZE + size then Wait
      else
        var payload := buf[HEADER_SIZE..HEADER_SIZE + size];
        if Checksum(payload) != U16(buf, 4) then BadChecksum
        else Take(Packet(U16(buf, 6), U16(buf, 10), U32(buf, 12), payload))
  }

  /** What reading a buffer yields: packets, the unread rest, and the error counts. */
  datatype Reading = Reading(packets: seq<Packet>, rest: seq<Byte>, discarded: nat, lengthErrors: nat, checksumErrors: nat)

  function Scan(buf: seq<Byte>, max: int): Reading
    decreases |buf|
  {
    match Next(buf, max)
    case Wait => Reading([], buf, 0, 0, 0)
    case Take(p) =>
      var r := Scan(buf[HEADER_SIZE + |p.payload|..], max);
      r.(packets := [p] + r.packets)
    case step =>
      var r := Scan(buf[1..], max);
      r.(discarded := r.discarded + 1,
         lengthErrors := r.lengthErrors + if step.BadLength? then 1 else 0,
         checksumErrors := r.checksumErrors + if step.BadChecksum? then 1 else 0)
  }

  function Then(a: Reading, b: Reading): Reading {
    Reading(a.packets + b.packets, b.rest, a.discarded + b.discarded,
            a.lengthErrors + b.lengthErrors, a.checksumErrors + b.checksumErrors)
  }

  // ----- what the reading guarantees -----

  /** A decision, once made, does not depend on what follows. */
  lemma NextStable(buf: seq<Byte>, more: seq<Byte>, max: int)
    requires Next(buf, max) != Wait
    ensures Next(buf + more, max) == Next(buf, max)
  {
    var all := buf + more;
    if |buf| >= 4 {
      assert all[..4] == buf[..4];
      if |buf| >= HEADER_SIZE && buf[..4] == MAGIC {
        var size := U16(buf, 8);
        if |buf| >= HEADER_SIZE + size {
          assert all[HEADER_SIZE..HEADER_SIZE + size] == buf[HEADER_SIZE..HEADER_SIZE + size];
        }
      }
    } else {
      ShortPrefix(buf, more);
    }
  }

  lemma ShortPrefix(buf: seq<Byte>, more: seq<Byte>)
    requires |buf| < 4
    ensures |buf + more| >= 4 && (buf + more)[..4] == MAGIC ==> buf <= MAGIC
    ensures buf + more <= MAGIC ==> buf <= MAGIC
  {
    if |buf + more| >= 4 {
      assert buf == (buf + more)[..4][..|buf|];
    }
  }

  /** Reading is incremental: read `a`, keep the rest, read on with `b` - and get what reading `a + b` gives. */
  lemma {:induction false} ScanSplits(a: seq<Byte>, b: seq<Byte>, max: int)
    ensures Scan(a + b, max) == Then(Scan(a, max), Scan(Scan(a, max).rest + b, max))
    decreases |a|
  {
    if !Next(a, max).Wait? {
      NextStable(a, b, max);
      var n := Eaten(Next(a, max));
      assert (a + b)[n..] == a[n..] + b;
      ScanSplits(a[n..], b, max);
      hide Next;
      ScanStep(a, max);
      ScanStep(a + b, max);
      hide Scan;
      ThenAssociates(Single(Next(a, max)), Scan(a[n..], max), Scan(Scan(a[n..], max).rest + b, max));
    }
  }

  /** How many bytes a decision consumes, and what it yields. */
  function Eaten(step: Step): nat {
    if step.Wait? then 0 else if step.Take? then HEADER_SIZE + |step.packet.payload| else 1
  }

  function Single(step: Step): Reading {
    match step
    case Wait => Reading([], [], 0, 0, 0)
    case Noise => Reading([], [], 1, 0, 0)
    case BadLength => Reading([], [], 1, 1, 0)
    case BadChecksum => Reading([], [], 1, 0, 1)
    case Take(p) => Reading([p], [], 0, 0, 0)
  }

  lemma ScanStep(buf: seq<Byte>, max: int)
    requires !Next(buf, max).Wait?
    ensures Eaten(Next(buf, max)) <= |buf|
    ensures Scan(buf, max) == Then(Single(Next(buf, max)), Scan(buf[Eaten(Next(buf, max))..], max))
  {
    EatenFits(buf, max);
    hide Next;
    var r := Scan(buf[Eaten(Next(buf, max))..], max);
    assert [] + r.packets == r.packets;
  }

  lemma EatenFits(buf: seq<Byte>, max: int)
    ensures Eaten(Next(buf, max)) <= |buf|
  {
  }

  lemma ThenAssociates(a: Reading, b: Reading, c: Reading)
    ensures Then(a, Then(b, c)) == Then(Then(a, b), c)
    ensures Then(a, b).rest == b.rest
  {
  }

  /** Nothing is lost or invented: every byte is discarded, part of a packet, or still buffered. */
  function PacketBytes(ps: seq<Packet>): nat {
    if ps == [] then 0 else HEADER_SIZE + |ps[0].payload| + PacketBytes(ps[1..])
  }

  lemma {:induction false} PacketBytesJoin(a: seq<Packet>, b: seq<Packet>)
    ensures PacketBytes(a + b) == PacketBytes(a) + PacketBytes(b)
  {
    if a == [] {
      assert a + b == b;
    } else {
      PacketBytesJoin(a[1..], b);
      assert (a + b)[1..] == a[1..] + b;
    }
  }

  lemma {:induction false} ScanConserves(buf: seq<Byte>, max: int)
    requires max >= 0
    ensures var r := Scan(buf, max);
            && |buf| == r.discarded + PacketBytes(r.packets) + |r.rest|
            && |r.rest| < HEADER_SIZE + max
            && Next(r.rest, max) == Wait
            && r.lengthErrors + r.checksumErrors <= r.discarded
            && forall p :: p in r.packets ==> |p.payload| <= max
    decreases |buf|
  {
    if !Next(buf, max).Wait? {
      var n := if Next(buf, max).Take? then HEADER_SIZE + |Next(buf, max).packet.payload| else 1;
      ScanConserves(buf[n..], max);
    }
  }

  // ----- round trip and resynchronisation -----

  lemma NextOfEncoded(p: Packet, more: seq<Byte>, max: int)
    requires Encodable(p) && |p.payload| <= max
    ensures Next(Encode(p) + more, max) == Take(p)
  {
    var b := Encode(p) + more;
    assert b == Header(Checksum(p.payload), p.kind, |p.payload|, p.version, p.fill) + (p.payload + more);
    HeaderFields(Checksum(p.payload), p.kind, |p.payload|, p.version, p.fill, p.payload + more);
    assert b[HEADER_SIZE..HEADER_SIZE + |p.payload|] == b[HEADER_SIZE..][..|p.payload|] == p.payload;
  }

  lemma ScanEncoded(p: Packet, more: seq<Byte>, max: int)
    requires Encodable(p) && |p.payload| <= max
    ensures Scan(Encode(p) + more, max) == Then(Reading([p], [], 0, 0, 0), Scan(more, max))
  {
    NextOfEncoded(p, more, max);
    hide Next, Encode;
    assert (Encode(p) + more)[HEADER_SIZE + |p.payload|..] == more;
  }

  lemma {:induction false} RoundTrip(ps: seq<Packet>, max: int)
    requires forall p :: p in ps ==> Encodable(p) && |p.payload| <= max
    ensures Scan(EncodeAll(ps), max) == Reading(ps, [], 0, 0, 0)
  {
    if ps == [] {
      assert EncodeAll(ps) == [];
    } else {
      hide Scan, Encode;
      ScanEncoded(ps[0], EncodeAll(ps[1..]), max);
      RoundTrip(ps[1..], max);
    }
  }

  /** The frame mark occurs at position `i`. */
  predicate MarkAt(buf: seq<Byte>, i: nat) {
    i + 4 <= |buf| && buf[i..i + 4] == MAGIC
  }

  predicate NoMark(buf: seq<Byte>) {
    forall i :: 0 <= i < |buf| ==> !MarkAt(buf, i)
  }

  lemma ScanOfNoise(buf: seq<Byte>, max: int)
    requires buf != [] && Next(buf, max) == Noise
    ensures Scan(buf, max) == Then(Reading([], [], 1, 0, 0), Scan(buf[1..], max))
  {
    hide Scan;
    ScanStep(buf, max);
  }

  /** Noise bytes at the front are skipped one by one. */
  lemma {:induction false} SkipNoise(buf: seq<Byte>, k: nat, max: int)
    requires k <= |buf| && forall i :: 0 <= i < k ==> Next(buf[i..], max) == Noise
    ensures Scan(buf, max) == Then(Reading([], [], k, 0, 0), Scan(buf[k..], max))
    decreases k
  {
    hide Next, Scan;
    assert buf[0..] == buf;
    if k > 0 {
      forall i | 0 <= i < k - 1
        ensures Next(buf[1..][i..], max) == Noise
      {
        assert buf[1..][i..] == buf[i + 1..];
      }
      SkipNoise(buf[1..], k - 1, max);
      assert buf[1..][k - 1..] == buf[k..];
      ScanOfNoise(buf, max);
    }
  }

  /** A position without the mark, with room for one, is noise. */
  lemma UnmarkedIsNoise(buf: seq<Byte>, i: nat, max: int)
    requires i + 4 <= |buf| && !MarkAt(buf, i)
    ensures Next(buf[i..], max) == Noise
  {
    assert buf[i..][..4] == buf[i..i + 4];
  }

  /** The mark cannot straddle the end of an unmarked prefix and a mark that follows it. */
  lemma NoStraddle(prefix: seq<Byte>, rest: seq<Byte>, i: nat)
    requires NoMark(prefix) && MarkAt(rest, 0) && i < |prefix|
    ensures !MarkAt(prefix + rest, i)
  {
    var b := prefix + rest;
    if i + 4 <= |prefix| {
      assert b[i..i + 4] == prefix[i..i + 4];
      assert !MarkAt(prefix, i);
    } else {
      var j := |prefix| - i;
      assert rest[..4] == MAGIC;
      assert b[i..i + 4][j] == rest[0];
      assert forall x :: 0 <= x < 4 - j ==> b[i..i + 4][j + x] == rest[..4][x];
      assert b[i..i + 4] != MAGIC;
    }
  }

  /** Resynchronisation: whatever unmarked bytes come first are discarded, and every packet after them is read. */
  lemma Resync(prefix: seq<Byte>, ps: seq<Packet>, max: int)
    requires NoMark(prefix) && ps != [] && forall p :: p in ps ==> Encodable(p) && |p.payload| <= max
    ensures Scan(prefix + EncodeAll(ps), max) == Reading(ps, [], |prefix|, 0, 0)
  {
    hide Scan, Next, EncodeAll;
    var rest := EncodeAll(ps);
    EncodedHasMark(ps);
    var b := prefix + rest;
    forall i | 0 <= i < |prefix|
      ensures Next(b[i..], max) == Noise
    {
      NoStraddle(prefix, rest, i);
      UnmarkedIsNoise(b, i, max);
    }
    SkipNoise(b, |prefix|, max);
    assert b[|prefix|..] == rest;
    RoundTrip(ps, max);
  }

  lemma EncodedHasMark(ps: seq<Packet>)
    requires ps != []
    ensures MarkAt(EncodeAll(ps), 0)
  {
    assert EncodeAll(ps)[0..4] == MAGIC;
  }

  // ----- the decoder -----

  datatype Refusal = NotMonotonic | TooMuch

  datatype Reply = Packets(packets: seq<Packet>) | Refused(why: Refusal)

  datatype State = State(buffer: seq<Byte>, lastInput: Option<real>, lastNow: Option<real>, discarded: nat,
                         checksumErrors: nat, lengthErrors: nat, timeouts: nat)

  predicate Expires(s: State, idle: real, now: real) {
    s.buffer != [] && s.lastInput.Some? && now - s.lastInput.value >= idle
  }

  /** A stale partial packet is dropped and counted. */
  function Expire(s: State, idle: real, now: real): State {
    if Expires(s, idle, now) then
      s.(buffer := [], discarded := s.discarded + |s.buffer|, timeouts := s.timeouts + 1)
    else s
  }

  /** The meaning of one accepted feed. */
  function Fed(s: State, max: int, idle: real, data: seq<Byte>, now: real): (State, seq<Packet>) {
    var t := Expire(s, idle, now);
    var r := Scan(t.buffer + data, max);
    (t.(buffer := r.rest, lastNow := Some(now), lastInput := if data == [] then s.lastInput else Some(now),
        discarded := t.discarded + r.discarded, checksumErrors := t.checksumErrors + r.checksumErrors,
        lengthErrors := t.lengthErrors + r.lengthErrors),
     r.packets)
  }

  /** The partial packet that waited too long is dropped and counted before the new bytes are read, and only that one. */
  lemma StaleIsDropped(s: State, max: int, idle: real, data: seq<Byte>, now: real)
    ensures var (t, packets) := Fed(s, max, idle, data, now);
            var stale := s.buffer != [] && s.lastInput.Some? && now - s.lastInput.value >= idle;
            var r := Scan((if stale then [] else s.buffer) + data, max);
            && packets == r.packets && t.buffer == r.rest
            && t.timeouts == s.timeouts + (if stale then 1 else 0)
            && t.discarded == s.discarded + r.discarded + (if stale then |s.buffer| else 0)
            && t.checksumErrors == s.checksumErrors + r.checksumErrors && t.lengthErrors == s.lengthErrors + r.lengthErrors
            && t.lastInput == (if data == [] then s.lastInput else Some(now)) && t.lastNow == Some(now)
  {
    hide Scan;
  }

  // ----- whole sessions -----

  datatype Chunk = Chunk(data: seq<Byte>, at: real)

  /** A session: accepted feeds one after the other. */
  function Run(s: State, max: int, idle: real, chunks: seq<Chunk>): (State, seq<Packet>)
    decreases |chunks|
  {
    if chunks == [] then (s, [])
    else
      var (s1, p1) := Fed(s, max, idle, chunks[0].data, chunks[0].at);
      var (s2, p2) := Run(s1, max, idle, chunks[1..]);
      (s2, p1 + p2)
  }

  function Bytes(chunks: seq<Chunk>): seq<Byte> {
    if chunks == [] then [] else chunks[0].data + Bytes(chunks[1..])
  }

  /** No feed of the session finds the buffer stale. */
  predicate Timely(s: State, max: int, idle: real, chunks: seq<Chunk>)
    decreases |chunks|
  {
    chunks != [] ==>
      !Expires(s, idle, chunks[0].at)
      && Timely(Fed(s, max, idle, chunks[0].data, chunks[0].at).0, max, idle, chunks[1..])
  }

  /** Chunking does not matter: any timely way of feeding a byte stream gives what one scan of the stream gives -
      the same packets, buffer, discards and error counts. */
  lemma {:induction false} RunIsOneScan(s: State, max: int, idle: real, chunks: seq<Chunk>)
    requires Timely(s, max, idle, chunks) && Next(s.buffer, max).Wait?
    ensures var (t, packets) := Run(s, max, idle, chunks);
            var r := Scan(s.buffer + Bytes(chunks), max);
            && packets == r.packets && t.buffer == r.rest
            && t.discarded == s.discarded + r.discarded && t.timeouts == s.timeouts
            && t.checksumErrors == s.checksumErrors + r.checksumErrors
            && t.lengthErrors == s.lengthErrors + r.lengthErrors
    decreases |chunks|
  {
    hide Next, Scan, Fed;
    if chunks == [] {
      assert s.buffer + [] == s.buffer;
      WaitingScan(s.buffer, max);
    } else {
      var a := chunks[0].data;
      var s1 := Fed(s, max, idle, a, chunks[0].at).0;
      FedIsScan(s, max, idle, a, chunks[0].at);
      RestWaits(s.buffer + a, max);
      RunIsOneScan(s1, max, idle, chunks[1..]);
      ScanSplits(s.buffer + a, Bytes(chunks[1..]), max);
      assert s.buffer + Bytes(chunks) == (s.buffer + a) + Bytes(chunks[1..]);
    }
  }

  lemma WaitingScan(buf: seq<Byte>, max: int)
    requires Next(buf, max).Wait?
    ensures Scan(buf, max) == Reading([], buf, 0, 0, 0)
  {
  }

  /** A feed that does not find the buffer stale is one scan of the buffer and the new bytes. */
  lemma FedIsScan(s: State, max: int, idle: real, data: seq<Byte>, now: real)
    requires !Expires(s, idle, now)
    ensures var (t, packets) := Fed(s, max, idle, data, now);
            var r := Scan(s.buffer + data, max);
            && packets == r.packets && t.buffer == r.rest
            && t.discarded == s.discarded + r.discarded && t.timeouts == s.timeouts
            && t.checksumErrors == s.checksumErrors + r.checksumErrors
            && t.lengthErrors == s.lengthErrors + r.lengthErrors
  {
    hide Scan, Next;
  }

  lemma {:induction false} RestWaits(buf: seq<Byte>, max: int)
    ensures Next(Scan(buf, max).rest, max).Wait?
    decreases |buf|
  {
    if !Next(buf, max).Wait? {
      RestWaits(buf[Eaten(Next(buf, max))..], max);
    }
  }

  /** Two sessions that feed the same bytes agree. */
  lemma ChunkingInvariance(s: State, max: int, idle: real, cs: seq<Chunk>, ds: seq<Chunk>)
    requires Next(s.buffer, max).Wait? && Bytes(cs) == Bytes(ds)
    requires Timely(s, max, idle, cs) && Timely(s, max, idle, ds)
    ensures var ((t, p), (u, q)) := (Run(s, max, idle, cs), Run(s, max, idle, ds));
            && p == q && t.buffer == u.buffer && t.discarded == u.discarded && t.timeouts == u.timeouts
            && t.checksumErrors == u.checksumErrors && t.lengthErrors == u.lengthErrors
  {
    hide Next, Scan, Run, Timely, Bytes;
    RunIsOneScan(s, max, idle, cs);
    RunIsOneScan(s, max, idle, ds);
  }

  /** Round trip over the link: packets encoded back to back, after unmarked noise and in any timely chunks, arrive
      as they were sent, and exactly the noise is discarded. */
  lemma SessionRoundTrip(max: int, idle: real, noise: seq<Byte>, ps: seq<Packet>, chunks: seq<Chunk>)
    requires NoMark(noise) && ps != [] && forall p :: p in ps ==> Encodable(p) && |p.payload| <= max
    requires Bytes(chunks) == noise + EncodeAll(ps)
    requires Timely(State([], None, None, 0, 0, 0, 0), max, idle, chunks)
    ensures var (t, packets) := Run(State([], None, None, 0, 0, 0, 0), max, idle, chunks);
            packets == ps && t.buffer == [] && t.discarded == |noise| && t.checksumErrors == t.lengthErrors == t.timeouts == 0
  {
    var s := State([], None, None, 0, 0, 0, 0);
    RunIsOneScan(s, max, idle, chunks);
    assert s.buffer + Bytes(chunks) == Bytes(chunks);
    Resync(noise, ps, max);
  }

  /** A packet read off the front is there in its own encoding. */
  lemma TakeIsEncoded(buf: seq<Byte>, max: int)
    requires Next(buf, max).Take?
    ensures var p := Next(buf, max).packet;
            && Encodable(p) && |p.payload| <= max && HEADER_SIZE + |p.payload| <= |buf|
            && buf == Encode(p) + buf[HEADER_SIZE + |p.payload|..]
  {
    hide Next, Checksum, U16, U32, Header;
    var p := Next(buf, max).packet;
    var n := HEADER_SIZE + |p.payload|;
    TakeFields(buf, max);
    HeaderOfFields(buf);
    assert Encode(p) == buf[..HEADER_SIZE] + buf[HEADER_SIZE..n];
    hide Encode;
    assert buf == (buf[..HEADER_SIZE] + buf[HEADER_SIZE..n]) + buf[n..];
  }

  lemma TakeFields(buf: seq<Byte>, max: int)
    requires Next(buf, max).Take?
    ensures var p := Next(buf, max).packet;
            && HEADER_SIZE + |p.payload| <= |buf| && buf[..4] == MAGIC && |p.payload| == U16(buf, 8) <= max
            && p.payload == buf[HEADER_SIZE..HEADER_SIZE + |p.payload|] && Checksum(p.payload) == U16(buf, 4)
            && p.kind == U16(buf, 6) && p.version == U16(buf, 10) && p.fill == U32(buf, 12)
  {
    hide Checksum, U16, U32;
  }

  /** If nothing was discarded, the bytes are those of the packets, and the rest. */
  lemma {:induction false} ScanExact(buf: seq<Byte>, max: int)
    requires Scan(buf, max).discarded == 0
    ensures var r := Scan(buf, max);
            buf == EncodeAll(r.packets) + r.rest && forall p :: p in r.packets ==> Encodable(p) && |p.payload| <= max
    decreases |buf|
  {
    hide Next, Encode;
    if Next(buf, max).Take? {
      var p := Next(buf, max).packet;
      TakeIsEncoded(buf, max);
      var more := buf[HEADER_SIZE + |p.payload|..];
      ScanExact(more, max);
      var r := Scan(more, max);
      assert Scan(buf, max).packets[1..] == r.packets;
      assert Encode(p) + (EncodeAll(r.packets) + r.rest) == (Encode(p) + EncodeAll(r.packets)) + r.rest;
    } else {
      assert Next(buf, max).Wait?;
      assert EncodeAll([]) + buf == buf;
    }
  }

  /** So in a timely stretch of a session in which nothing was discarded, nothing but whole packets came in, and each of them
      was handed out. */
  lemma SessionExact(s: State, max: int, idle: real, chunks: seq<Chunk>)
    requires Timely(s, max, idle, chunks) && Next(s.buffer, max).Wait?
    requires Run(s, max, idle, chunks).0.discarded == s.discarded
    ensures var (t, packets) := Run(s, max, idle, chunks);
            s.buffer + Bytes(chunks) == EncodeAll(packets) + t.buffer
  {
    hide Next, Scan, Run, Timely, Bytes, EncodeAll;
    RunIsOneScan(s, max, idle, chunks);
    ScanExact(s.buffer + Bytes(chunks), max);
  }

  /** Conservation over any session, timely or not, and the buffer bound. */
  lemma {:induction false} RunConserves(s: State, max: int, idle: real, chunks: seq<Chunk>)
    requires max >= 0
    ensures var (t, packets) := Run(s, max, idle, chunks);
            && |s.buffer| + |Bytes(chunks)| == (t.discarded - s.discarded) + PacketBytes(packets) + |t.buffer|
            && (chunks != [] ==> |t.buffer| < HEADER_SIZE + max)
    decreases |chunks|
  {
    if chunks != [] {
      var t := Expire(s, idle, chunks[0].at);
      var (s1, p1) := Fed(s, max, idle, chunks[0].data, chunks[0].at);
      ScanConserves(t.buffer + chunks[0].data, max);
      RunConserves(s1, max, idle, chunks[1..]);
      PacketBytesJoin(p1, Run(s1, max, idle, chunks[1..]).1);
      assert chunks[1..] == [] ==> Run(s1, max, idle, chunks[1..]).0 == s1;
    }
  }

  class Decoder {
    const maxPayload: int
    const idleTimeout: real
    var buffer: seq<Byte>
    var lastInput: Option<real>
    var lastNow: Option<real>
    var discardedBytes: nat
    var checksumErrors: nat
    var lengthErrors: nat
    var timeouts: nat

    ghost predicate Valid()
      reads this
    {
      && 0 < maxPayload <= 65535 && idleTimeout > 0.0
      && (buffer != [] ==> lastInput.Some?)
      && Next(buffer, maxPayload) == Wait && |buffer| < HEADER_SIZE + maxPayload
    }

    function Abs(): State
      reads this
    {
      State(buffer, lastInput, lastNow, discardedBytes, checksumErrors, lengthErrors, timeouts)
    }

    constructor (maxPayload: int := 4096, idleTimeout: real := 1.0)
      requires 0 < maxPayload <= 65535 && idleTimeout > 0.0
      ensures Valid() && Abs() == State([], None, None, 0, 0, 0, 0)
      ensures this.maxPayload == maxPayload && this.idleTimeout == idleTimeout
    {
      this.maxPayload, this.idleTimeout := maxPayload, idleTimeout;
      buffer, lastInput, lastNow := [], None, None;
      discardedBytes, checksumErrors, lengthErrors, timeouts := 0, 0, 0, 0;
    }

    method Discard(count: nat)
      requires count <= |buffer|
      modifies this`buffer, this`discardedBytes
      ensures buffer == old(buffer)[count..] && discardedBytes == old(discardedBytes) + count
    {
      discardedBytes := discardedBytes + count;
      buffer := buffer[count..];
    }

    method Feed(data: seq<Byte>, now: real) returns (reply: Reply)
      requires Valid()
      modifies this
      ensures Valid()
      ensures (old(lastNow).Some? && now < old(lastNow).value) ==> reply == Refused(NotMonotonic)
      ensures reply.Refused? <==> (old(lastNow).Some? && now < old(lastNow).value) || |data| > 65536
      ensures reply.Refused? ==> Abs() == old(Abs())
      ensures reply.Packets? ==> (Abs(), reply.packets) == Fed(old(Abs()), maxPayload, idleTimeout, data, now)
    {
      ScanEmpty(maxPayload);
      hide Next, Scan;
      if lastNow.Some? && now < lastNow.value {
        return Refused(NotMonotonic);
      }
      if |data| > 65536 {
        return Refused(TooMuch);
      }
      lastNow := Some(now);
      if buffer != [] && now - lastInput.value >= idleTimeout {
        timeouts := timeouts + 1;
        Discard(|buffer|);
        assert buffer == [];
      }
      assert buffer + data == buffer || data != [];
      if data != [] {
        lastInput := Some(now);
        buffer := buffer + data;
      }
      var packets := Drain();
      reply := Packets(packets);
    }

    /** Decide about the frame at the front of the buffer; `done` if more bytes are needed. */
    method DecideFrame() returns (done: bool, taken: seq<Packet>)
      requires 0 < maxPayload <= 65535 && MarkAt(buffer, 0)
      modifies this`buffer, this`discardedBytes, this`checksumErrors, this`lengthErrors
      ensures var step := Next(old(buffer), maxPayload);
              && (done <==> step.Wait?)
              && Eaten(step) <= |old(buffer)| && buffer == old(buffer)[Eaten(step)..]
              && taken == Single(step).packets
              && discardedBytes == old(discardedBytes) + Single(step).discarded
              && checksumErrors == old(checksumErrors) + Single(step).checksumErrors
              && lengthErrors == old(lengthErrors) + Single(step).lengthErrors
    {
      taken := [];
      assert buffer[..4] == buffer[0..4] == MAGIC;
      if |buffer| < HEADER_SIZE {
        return true, taken;
      }
      var checksum, size := U16(buffer, 4), U16(buffer, 8);
      if size > maxPayload {
        lengthErrors := lengthErrors + 1;
        Discard(1);
        return false, taken;
      }
      var end := HEADER_SIZE + size;
      if |buffer| < end {
        return true, taken;
      }
      var payload := buffer[HEADER_SIZE..end];
      if Checksum(payload) != checksum {
        checksumErrors := checksumErrors + 1;
        Discard(1);
        return false, taken;
      }
      taken := [Packet(U16(buffer, 6), U16(buffer, 10), U32(buffer, 12), payload)];
      buffer := buffer[end..];
      done := false;
    }

    /** Bring the first mark to the front of the buffer; without one keep only what could begin a mark. */
    method Align() returns (found: bool, ghost dropped: nat)
      modifies this`buffer, this`discardedBytes
      ensures discardedBytes == old(discardedBytes) + dropped && |buffer| <= |old(buffer)|
      ensures found ==>
                && MarkAt(buffer, 0)
                && Scan(old(buffer), maxPayload) == Then(Reading([], [], dropped, 0, 0), Scan(buffer, maxPayload))
      ensures !found ==> Scan(old(buffer), maxPayload) == Reading([], buffer, dropped, 0, 0)
    {
      hide Next, Scan, EndsWith, NoMark, MarkAt;
      var offset := FindMark(buffer);
      if offset.None? {
        var keep := PartialMark(buffer);
        NoMarkSkips(buffer, keep, maxPayload);
        dropped := |buffer| - keep;
        Discard(|buffer| - keep);
        return false, dropped;
      }
      MarkSkips(buffer, offset.value, maxPayload);
      assert buffer[0..] == buffer;
      dropped := offset.value;
      if offset.value != 0 {
        Discard(offset.value);
      }
      found := true;
    }

    /** The decoding loop: find the mark, drop what precedes it, decide about the frame it opens. */
    method Drain() returns (packets: seq<Packet>)
      requires 0 < maxPayload <= 65535
      modifies this`buffer, this`discardedBytes, this`checksumErrors, this`lengthErrors
      ensures var r := Scan(old(buffer), maxPayload);
              && packets == r.packets && buffer == r.rest
              && discardedBytes == old(discardedBytes) + r.discarded
              && checksumErrors == old(checksumErrors) + r.checksumErrors
              && lengthErrors == old(lengthErrors) + r.lengthErrors
      ensures Next(buffer, maxPayload) == Wait && |buffer| < HEADER_SIZE + maxPayload
    {
      packets := [];
      ScanConserves(buffer, maxPayload);
      hide Next, Scan;
      ghost var all, n0, c0, l0 := buffer, discardedBytes, checksumErrors, lengthErrors;
      ghost var sofar := Reading([], [], 0, 0, 0);
      ThenNothing(Scan(buffer, maxPayload));
      while buffer != []
        invariant packets == sofar.packets && discardedBytes == n0 + sofar.discarded
               && checksumErrors == c0 + sofar.checksumErrors && lengthErrors == l0 + sofar.lengthErrors
        invariant Scan(all, maxPayload) == Then(sofar, Scan(buffer, maxPayload))
        decreases |buffer|
      {
        ghost var read;
        var done, taken;
        done, taken, read := Round();
        packets := packets + taken;
        if done {
          return;
        }
        ThenAssociates(sofar, read, Scan(buffer, maxPayload));
        sofar := Then(sofar, read);
      }
      ScanEmpty(maxPayload);
    }

    /** One round: to the first mark, then one decision. `read` is what the round adds to the reading. */
    method Round() returns (done: bool, taken: seq<Packet>, ghost read: Reading)
      requires 0 < maxPayload <= 65535
      modifies this`buffer, this`discardedBytes, this`checksumErrors, this`lengthErrors
      ensures taken == read.packets && discardedBytes == old(discardedBytes) + read.discarded
           && checksumErrors == old(checksumErrors) + read.checksumErrors && lengthErrors == old(lengthErrors) + read.lengthErrors
      ensures done ==> Scan(old(buffer), maxPayload) == read.(rest := buffer)
      ensures !done ==> |buffer| < |old(buffer)| && Scan(old(buffer), maxPayload) == Then(read, Scan(buffer, maxPayload))
    {
      hide Next, Scan;
      ghost var all := buffer;
      var found;
      ghost var dropped;
      found, dropped := Align();
      ghost var noise := Reading([], [], dropped, 0, 0);
      if !found {
        return true, [], noise;
      }
      ScanFront(buffer, maxPayload);
      ghost var step := Next(buffer, maxPayload);
      done, taken := DecideFrame();
      read := Then(noise, Single(step));
      if !done {
        ThenAssociates(noise, Single(step), Scan(buffer, maxPayload));
      }
    }
  }

  lemma ThenNothing(r: Reading)
    ensures Then(Reading([], [], 0, 0, 0), r) == r
  {
  }

  lemma ScanEmpty(max: int)
    ensures Scan([], max) == Reading([], [], 0, 0, 0)
  {
  }

  lemma ScanFront(buf: seq<Byte>, max: int)
    ensures Eaten(Next(buf, max)) <= |buf|
    ensures Next(buf, max).Wait? ==> Scan(buf, max) == Reading([], buf, 0, 0, 0)
    ensures !Next(buf, max).Wait? ==>
              Eaten(Next(buf, max)) > 0
              && Scan(buf, max) == Then(Single(Next(buf, max)), Scan(buf[Eaten(Next(buf, max))..], max))
  {
  }

  /** `bytearray.find(MAGIC)` */
  method FindMark(buf: seq<Byte>) returns (offset: Option<nat>)
    ensures offset.None? ==> NoMark(buf)
    ensures offset.Some? ==> MarkAt(buf, offset.value) && forall i :: 0 <= i < offset.value ==> !MarkAt(buf, i)
  {
    for i := 0 to |buf|
      invariant forall j :: 0 <= j < i ==> !MarkAt(buf, j)
    {
      if MarkAt(buf, i) {
        return Some(i);
      }
    }
    offset := None;
  }

  predicate EndsWith(buf: seq<Byte>, tail: seq<Byte>) {
    |tail| <= |buf| && buf[|buf| - |tail|..] == tail
  }

  /** How many bytes at the end could be the beginning of a mark. */
  method PartialMark(buf: seq<Byte>) returns (keep: nat)
    ensures keep <= 3 && keep <= |buf| && EndsWith(buf, MAGIC[..keep])
    ensures forall n :: keep < n <= 3 ==> !EndsWith(buf, MAGIC[..n])
  {
    if EndsWith(buf, MAGIC[..3]) {
      return 3;
    }
    if EndsWith(buf, MAGIC[..2]) {
      return 2;
    }
    if EndsWith(buf, MAGIC[..1]) {
      return 1;
    }
    keep := 0;
  }

  lemma MarkSkips(buf: seq<Byte>, k: nat, max: int)
    requires MarkAt(buf, k) && forall i :: 0 <= i < k ==> !MarkAt(buf, i)
    ensures Scan(buf, max) == Then(Reading([], [], k, 0, 0), Scan(buf[k..], max))
    ensures MarkAt(buf[k..], 0)
  {
    assert buf[k..][0..4] == buf[k..k + 4];
    forall i | 0 <= i < k
      ensures Next(buf[i..], max) == Noise
    {
      UnmarkedIsNoise(buf, i, max);
    }
    hide Next, Scan;
    SkipNoise(buf, k, max);
  }

  /** A tail too short for the mark: noise unless it is the beginning of one, and then the decoder waits. */
  lemma ShortTail(buf: seq<Byte>, max: int)
    requires |buf| < 4
    ensures Next(buf, max) == if buf == MAGIC[..|buf|] then Wait else Noise
    ensures buf == MAGIC[..|buf|] ==> Scan(buf, max) == Reading([], buf, 0, 0, 0)
  {
  }

  lemma NoMarkSkips(buf: seq<Byte>, keep: nat, max: int)
    requires NoMark(buf) && keep <= 3 && keep <= |buf| && EndsWith(buf, MAGIC[..keep])
    requires forall n :: keep < n <= 3 ==> !EndsWith(buf, MAGIC[..n])
    ensures Scan(buf, max) == Reading([], buf[|buf| - keep..], |buf| - keep, 0, 0)
  {
    var k := |buf| - keep;
    assert buf[k..] == MAGIC[..keep];
    ShortTail(buf[k..], max);
    hide Next, Scan, EndsWith;
    forall i | 0 <= i < k
      ensures Next(buf[i..], max) == Noise
    {
      if i + 4 <= |buf| {
        UnmarkedIsNoise(buf, i, max);
      } else {
        var n := |buf| - i;
        assert !EndsWith(buf, MAGIC[..n]);
        TailIsNoise(buf, n, max);
      }
    }
    hide NoMark;
    SkipNoise(buf, k, max);
  }

  lemma TailIsNoise(buf: seq<Byte>, n: nat, max: int)
    requires 0 < n <= 3 && n <= |buf| && !EndsWith(buf, MAGIC[..n])
    ensures Next(buf[|buf| - n..], max) == Noise
  {
    hide Next, Scan;
    ShortTail(buf[|buf| - n..], max);
  }
}
