/** What the module's parser makes of a byte stream, and the host packets it must understand. */
module Firmware {
  import opened Wire

  const MAX_PAYLOAD := 2048

  /** A frame that passed every check: the low byte of its type, and its payload. */
  datatype Frame = Frame(kind: Byte, payload: seq<Byte>)

  /** Types by low byte: every type the module accepts is 0x01xx. */
  const PLAY_DATA: Byte := 0x10
  const PLAY_END: Byte := 0x11

  datatype Step = Wait | Slip | Bad(size: nat) | Take(frame: Frame)

  predicate GoodHeader(b: seq<Byte>)
    requires |b| >= HEADER_SIZE
  {
    && b[0] == 0xa5 && b[1] == 0xa5 && b[2] == 0x5a && b[3] == 0x5a
    && b[7] == 1 && b[10] == 0 && b[11] == 1
    && b[12] == 0x78 && b[13] == 0x56 && b[14] == 0x34 && b[15] == 0x12
  }

  function Next(b: seq<Byte>): Step {
    if |b| < HEADER_SIZE then Wait
    else if !GoodHeader(b) then Slip
    else
      var size := U16(b, 8);
      if size > MAX_PAYLOAD then Slip
      else if |b| < HEADER_SIZE + size then Wait
      else
        var payload := b[HEADER_SIZE..HEADER_SIZE + size];
        if Checksum(payload) != U16(b, 4) then Bad(size)
        else Take(Frame(b[6], payload))
  }

  function Eaten(step: Step): nat {
    match step
    case Wait => 0
    case Slip => 1
    case Bad(size) => HEADER_SIZE + size
    case Take(f) => HEADER_SIZE + |f.payload|
  }

  datatype Reading = Reading(frames: seq<Frame>, slipped: nat, bad: nat)

  function Single(step: Step): Reading {
    match step
    case Wait => Reading([], 0, 0)
    case Slip => Reading([], 1, 0)
    case Bad(_) => Reading([], 0, 1)
    case Take(f) => Reading([f], 0, 0)
  }

  function Then(a: Reading, b: Reading): Reading {
    Reading(a.frames + b.frames, a.slipped + b.slipped, a.bad + b.bad)
  }

  lemma EatenFits(b: seq<Byte>)
    ensures Eaten(Next(b)) <= |b|
    ensures Next(b) != Wait ==> Eaten(Next(b)) > 0
  {
  }

  /** One left-to-right reading of a whole stream. */
  function Scan(b: seq<Byte>): Reading
    decreases |b|
  {
    EatenFits(b);
    if Next(b).Wait? then Reading([], 0, 0)
    else Then(Single(Next(b)), Scan(b[Eaten(Next(b))..]))
  }

  /** What the reading leaves unread. */
  function Unread(b: seq<Byte>): seq<Byte>
    decreases |b|
  {
    EatenFits(b);
    if Next(b).Wait? then b else Unread(b[Eaten(Next(b))..])
  }

  /** A decision does not depend on bytes that have not arrived yet. */
  lemma NextStable(b: seq<Byte>, more: seq<Byte>)
    requires Next(b) != Wait
    ensures Next(b + more) == Next(b)
  {
    var all := b + more;
    if GoodHeader(b) && U16(b, 8) <= MAX_PAYLOAD {
      var size := U16(b, 8);
      assert all[HEADER_SIZE..HEADER_SIZE + size] == b[HEADER_SIZE..HEADER_SIZE + size];
    }
  }

  // ----- what the host sends -----

  /** A packet the module can act on. */
  predicate ForModule(p: Packet) {
    && Encodable(p) && p.kind / 256 == 1 && p.version == 0x100 && p.fill == FILL && |p.payload| <= MAX_PAYLOAD
  }

  function FrameOf(p: Packet): Frame
    requires ForModule(p)
  {
    Frame(p.kind % 256, p.payload)
  }

  function FramesOf(ps: seq<Packet>): seq<Frame>
    requires forall p :: p in ps ==> ForModule(p)
  {
    seq(|ps|, i requires 0 <= i < |ps| => FrameOf(ps[i]))
  }

  lemma FillBytes(b: seq<Byte>)
    requires |b| >= HEADER_SIZE && U32(b, 12) == FILL
    ensures b[12] == 0x78 && b[13] == 0x56 && b[14] == 0x34 && b[15] == 0x12
  {
    var b0: int, b1: int, b2: int, b3: int := b[12], b[13], b[14], b[15];
    assert b0 + 256 * b1 + 65536 * (b2 + 256 * b3) == 0x12345678;
  }

  lemma HighLow(b: seq<Byte>, i: nat)
    requires i + 2 <= |b|
    ensures b[i] == U16(b, i) % 256 && b[i + 1] == U16(b, i) / 256
  {
  }

  lemma NextOfEncoded(p: Packet, more: seq<Byte>)
    requires ForModule(p)
    ensures Next(Encode(p) + more) == Take(FrameOf(p))
  {
    var b := Encode(p) + more;
    assert b == Header(Checksum(p.payload), p.kind, |p.payload|, p.version, p.fill) + (p.payload + more);
    HeaderFields(Checksum(p.payload), p.kind, |p.payload|, p.version, p.fill, p.payload + more);
    assert b[HEADER_SIZE..HEADER_SIZE + |p.payload|] == b[HEADER_SIZE..][..|p.payload|] == p.payload;
    assert b[..4] == MAGIC;
    FillBytes(b);
    HighLow(b, 6);
    HighLow(b, 10);
  }

  lemma EncodedSize(p: Packet)
    ensures |Encode(p)| == HEADER_SIZE + |p.payload|
  {
  }

  /** The module reads back exactly the packets the host encoded, without slipping a byte. */
  lemma {:induction false} HostToModule(ps: seq<Packet>)
    requires forall p :: p in ps ==> ForModule(p)
    ensures Scan(EncodeAll(ps)) == Reading(FramesOf(ps), 0, 0) && Unread(EncodeAll(ps)) == []
  {
    if ps != [] {
      hide Next, Encode;
      var more := EncodeAll(ps[1..]);
      EncodedSize(ps[0]);
      HostToModule(ps[1..]);
      NextOfEncoded(ps[0], more);
      assert (Encode(ps[0]) + more)[HEADER_SIZE + |ps[0].payload|..] == more;
      assert FramesOf(ps) == [FrameOf(ps[0])] + FramesOf(ps[1..]);
    }
  }

  /** The packet a frame came in. */
  function PacketOf(f: Frame): Packet {
    Packet(256 + f.kind, 0x100, FILL, f.payload)
  }

  function PacketsOf(fs: seq<Frame>): seq<Packet> {
    if fs == [] then [] else [PacketOf(fs[0])] + PacketsOf(fs[1..])
  }

  lemma TakeFields(b: seq<Byte>)
    requires Next(b).Take?
    ensures var f := Next(b).frame;
            && HEADER_SIZE + |f.payload| <= |b| && b[..4] == MAGIC && |f.payload| == U16(b, 8) <= MAX_PAYLOAD
            && f.payload == b[HEADER_SIZE..HEADER_SIZE + |f.payload|] && Checksum(f.payload) == U16(b, 4)
            && U16(b, 6) == 256 + f.kind && U16(b, 10) == 0x100 && U32(b, 12) == FILL
  {
    hide Checksum;
    assert b[..4] == MAGIC;
  }

  /** The module takes nothing but what the host's encoding yields. */
  lemma TakesOnlyEncodings(b: seq<Byte>)
    requires Next(b).Take?
    ensures var p := PacketOf(Next(b).frame);
            && ForModule(p) && FrameOf(p) == Next(b).frame
            && Eaten(Next(b)) <= |b| && b == Encode(p) + b[Eaten(Next(b))..]
  {
    TakeFields(b);
    HeaderOfFields(b);
    hide Next, Checksum, U16, U32, Header;
    var f := Next(b).frame;
    var n := HEADER_SIZE + |f.payload|;
    assert Encode(PacketOf(f)) == b[..HEADER_SIZE] + b[HEADER_SIZE..n];
    hide Encode;
    assert b == (b[..HEADER_SIZE] + b[HEADER_SIZE..n]) + b[n..];
  }

  /** The converse of `HostToModule`: a stream the module reads without slipping a byte or a bad sum is the host's encoding of
      the packets read, and what is still unread. */
  lemma {:induction false} ScanExact(b: seq<Byte>)
    requires Scan(b).slipped == 0 && Scan(b).bad == 0
    ensures b == EncodeAll(PacketsOf(Scan(b).frames)) + Unread(b)
    decreases |b|
  {
    hide Next, Encode, ForModule;
    EatenFits(b);
    if Next(b).Take? {
      var p := PacketOf(Next(b).frame);
      TakesOnlyEncodings(b);
      var more := b[Eaten(Next(b))..];
      ScanExact(more);
      assert Scan(b).frames[1..] == Scan(more).frames;
      assert PacketsOf(Scan(b).frames)[1..] == PacketsOf(Scan(more).frames);
      var rest := EncodeAll(PacketsOf(Scan(more).frames));
      assert Encode(p) + (rest + Unread(more)) == (Encode(p) + rest) + Unread(more);
    } else {
      assert Next(b).Wait?;
      assert EncodeAll([]) + b == b;
    }
  }

  /** `play_packet` */
  function PlayPacket(payload: seq<Byte>): (p: Packet)
    ensures |payload| <= MAX_PAYLOAD ==> ForModule(p) && FrameOf(p) == Frame(PLAY_DATA, payload)
  {
    Packet(0x110, 0x100, FILL, payload)
  }

  /** `end_packet` */
  function EndPacket(): (p: Packet)
    ensures ForModule(p) && FrameOf(p) == Frame(PLAY_END, [])
  {
    Packet(0x111, 0x100, FILL, [])
  }

  const CHUNK := 2048

  /** The packets `play` sends for a recording. */
  function PlayPackets(pcm: seq<Byte>): (ps: seq<Packet>)
    ensures forall p :: p in ps ==> ForModule(p)
    decreases |pcm|
  {
    if pcm == [] then [EndPacket()]
    else
      var n := if |pcm| < CHUNK then |pcm| else CHUNK;
      [PlayPacket(pcm[..n])] + PlayPackets(pcm[n..])
  }

  /** The audio carried by a frame sequence. */
  function Audio(frames: seq<Frame>): seq<Byte> {
    if frames == [] then []
    else (if frames[0].kind == PLAY_DATA then frames[0].payload else []) + Audio(frames[1..])
  }

  /** A recording streamed by the host is read by the module as exactly that recording, then the end mark. */
  lemma {:induction false} StreamRoundTrip(pcm: seq<Byte>)
    ensures var r := Scan(EncodeAll(PlayPackets(pcm)));
            Audio(r.frames) == pcm && r.slipped == r.bad == 0 && r.frames != [] && r.frames[|r.frames| - 1] == Frame(PLAY_END, [])
    decreases |pcm|
  {
    HostToModule(PlayPackets(pcm));
    AudioOfPackets(pcm);
  }

  /** The same after any commands that carry no audio. */
  lemma {:induction false} StreamAfterCommands(commands: seq<Packet>, pcm: seq<Byte>)
    requires forall p :: p in commands ==> ForModule(p) && FrameOf(p).kind != PLAY_DATA
    ensures var r := Scan(EncodeAll(commands + PlayPackets(pcm))); Audio(r.frames) == pcm && r.slipped == r.bad == 0
  {
    HostToModule(commands + PlayPackets(pcm));
    AudioAfterCommands(commands, pcm);
  }

  lemma {:induction false} AudioAfterCommands(commands: seq<Packet>, pcm: seq<Byte>)
    requires forall p :: p in commands ==> ForModule(p) && FrameOf(p).kind != PLAY_DATA
    ensures Audio(FramesOf(commands + PlayPackets(pcm))) == pcm
  {
    hide ForModule, FrameOf, PlayPackets;
    if commands == [] {
      assert commands + PlayPackets(pcm) == PlayPackets(pcm);
      AudioOfPackets(pcm);
    } else {
      var rest := commands[1..] + PlayPackets(pcm);
      AudioAfterCommands(commands[1..], pcm);
      assert commands + PlayPackets(pcm) == [commands[0]] + rest;
      FramesOfFirst(commands[0], rest);
      assert ([FrameOf(commands[0])] + FramesOf(rest))[1..] == FramesOf(rest);
    }
  }

  lemma FramesOfFirst(p: Packet, rest: seq<Packet>)
    requires ForModule(p) && forall q :: q in rest ==> ForModule(q)
    ensures FramesOf([p] + rest) == [FrameOf(p)] + FramesOf(rest)
  {
  }

  lemma AudioOfFirst(payload: seq<Byte>, rest: seq<Frame>)
    ensures Audio([Frame(PLAY_DATA, payload)] + rest) == payload + Audio(rest)
  {
    assert ([Frame(PLAY_DATA, payload)] + rest)[1..] == rest;
  }

  lemma {:induction false} AudioOfPackets(pcm: seq<Byte>)
    ensures var fs := FramesOf(PlayPackets(pcm));
            Audio(fs) == pcm && fs != [] && fs[|fs| - 1] == Frame(PLAY_END, [])
    decreases |pcm|
  {
    hide ForModule, FramesOf, Audio;
    if pcm == [] {
      AudioOfEnd();
    } else {
      var n := if |pcm| < CHUNK then |pcm| else CHUNK;
      AudioOfPackets(pcm[n..]);
      AudioOfMore(pcm[..n], PlayPackets(pcm[n..]));
      assert pcm == pcm[..n] + pcm[n..];
    }
  }

  lemma AudioOfEnd()
    ensures FramesOf([EndPacket()]) == [Frame(PLAY_END, [])] && Audio([Frame(PLAY_END, [])]) == []
  {
  }

  lemma AudioOfMore(payload: seq<Byte>, rest: seq<Packet>)
    requires |payload| <= MAX_PAYLOAD && rest != [] && forall q :: q in rest ==> ForModule(q)
    ensures var fs, gs := FramesOf([PlayPacket(payload)] + rest), FramesOf(rest);
            Audio(fs) == payload + Audio(gs) && fs != [] && gs != [] && fs[|fs| - 1] == gs[|gs| - 1]
  {
    hide ForModule, Audio, PlayPacket;
    FramesOfFirst(PlayPacket(payload), rest);
    AudioOfFirst(payload, FramesOf(rest));
  }
}
