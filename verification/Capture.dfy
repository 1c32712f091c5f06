/** The five-second capture: the module cuts the microphone stream into frames, queues, encodes and sends them; the host
    accepts packets one by one and declares the capture finished. */
module Capture {
  import opened Wire
  import opened Optional

  const PCM_SAMPLES := 320
  const QUEUE_FRAMES := 8
  const MAX_FRAMES := 250
  const RATE := 16000
  const IDENTITY: seq<Byte> := [0x57, 0x45, 0x43, 0x31]  // "WEC1"

  type Sample = s: int | -32768 <= s < 32768

  // ----- packets -----

  const READY := 1
  const STARTED := 2
  const FINISHED := 3
  const FAILED := 4

  datatype Reason = OK | STOP | LIMIT | OVERFLOW | CODEC | TX_TIMEOUT | CAPTURE_TIMEOUT | BAD_INPUT

  function Code(r: Reason): int {
    match r
    case OK => 0
    case STOP => 1
    case LIMIT => 2
    case OVERFLOW => 3
    case CODEC => 4
    case TX_TIMEOUT => 5
    case CAPTURE_TIMEOUT => 6
    case BAD_INPUT => 7
  }

  function StatusPacket(phase: int, reason: int, sent: int): Packet {
    Packet(0x102, 0x100, FILL, IDENTITY + LE16(phase) + LE16(reason) + LE32(sent) + LE32(RATE))
  }

  function AudioPacket(sequence: int, data: seq<Byte>): Packet {
    Packet(0x105, sequence, FILL, [Low(|data|)] + data)
  }

  function DiagPacket(elapsed: int, encodePeak: int, sendPeak: int, queuePeak: int, produced: int, sent: int, tickHz: int,
                      reason: int): Packet {
    Packet(0x109, 0x100, FILL,
           LE32(elapsed) + LE32(encodePeak) + LE32(sendPeak) + LE32(queuePeak)
           + LE32(produced) + LE32(sent) + LE32(tickHz) + LE32(reason))
  }

  predicate Fits32(n: int) { 0 <= n < 0x1_0000_0000 }

  lemma Unpack32(n: int)
    requires Fits32(n)
    ensures U32(LE32(n), 0) == n
  {
    Unpack16(n % 65536);
    Unpack16(n / 65536);
    assert LE32(n)[0..2] == LE16(n % 65536) && LE32(n)[2..4] == LE16(n / 65536);
    At16(LE32(n), 0);
    At16(LE32(n), 2);
  }

  lemma At32(b: seq<Byte>, i: nat)
    requires i + 4 <= |b|
    ensures U32(b, i) == U32(b[i..i + 4], 0)
  {
    assert b[i..i + 4][0] == b[i] && b[i..i + 4][1] == b[i + 1] && b[i..i + 4][2] == b[i + 2] && b[i..i + 4][3] == b[i + 3];
  }

  lemma StatusFields(phase: int, reason: int, sent: int)
    requires 0 <= phase < 65536 && 0 <= reason < 65536 && Fits32(sent)
    ensures var p := StatusPacket(phase, reason, sent);
            p.kind == 0x102 && p.version == 0x100 && p.fill == FILL
    ensures var b := StatusPacket(phase, reason, sent).payload;
            |b| == 16 && b[..4] == IDENTITY && U16(b, 4) == phase && U16(b, 6) == reason && U32(b, 8) == sent && U32(b, 12) == RATE
  {
    var b := StatusPacket(phase, reason, sent).payload;
    assert b[4..6] == LE16(phase) && b[6..8] == LE16(reason) && b[8..12] == LE32(sent) && b[12..16] == LE32(RATE);
    Unpack16(phase);
    Unpack16(reason);
    Unpack32(sent);
    Unpack32(RATE);
    At16(b, 4);
    At16(b, 6);
    At32(b, 8);
    At32(b, 12);
  }

  lemma DiagFields(e: int, ep: int, sp: int, qp: int, produced: int, sent: int, hz: int, reason: int)
    requires Fits32(produced) && Fits32(sent) && Fits32(hz)
    ensures var p := DiagPacket(e, ep, sp, qp, produced, sent, hz, reason);
            p.kind == 0x109 && p.version == 0x100 && p.fill == FILL
    ensures var b := DiagPacket(e, ep, sp, qp, produced, sent, hz, reason).payload;
            |b| == 32 && U32(b, 16) == produced && U32(b, 20) == sent && U32(b, 24) == hz
  {
    var b := DiagPacket(e, ep, sp, qp, produced, sent, hz, reason).payload;
    assert b[16..20] == LE32(produced) && b[20..24] == LE32(sent) && b[24..28] == LE32(hz);
    Unpack32(produced);
    Unpack32(sent);
    Unpack32(hz);
    At32(b, 16);
    At32(b, 20);
    At32(b, 24);
  }

  // ----- the host -----

  datatype Host = Host(ready: bool, started: bool, finished: bool, frames: seq<seq<Byte>>, diagnosed: bool)

  const FRESH := Host(false, false, false, [], false)

  /** One packet on a plain capture (no prompt, no loopback); None is the exception that ends it. */
  function Accepted(h: Host, p: Packet): Option<Host> {
    if p.fill != FILL then None
    else if p.kind == 0x102 then AcceptedStatus(h, p)
    else if p.kind == 0x109 then AcceptedDiag(h, p)
    else if p.kind == 0x105 then AcceptedAudio(h, p)
    else None
  }

  function AcceptedStatus(h: Host, p: Packet): Option<Host> {
    if |p.payload| != 16 || p.version != 0x100 then None
    else if p.payload[..4] != IDENTITY || U32(p.payload, 12) != RATE then None
    else
      var phase, reason, sent := U16(p.payload, 4), U16(p.payload, 6), U32(p.payload, 8);
      if phase == READY then (if h.started || sent != 0 || reason != 0 then None else Some(h.(ready := true)))
      else if phase == STARTED then
        (if !h.ready || h.started || sent != 0 || reason != 0 then None else Some(h.(started := true)))
      else if phase == FINISHED then
        (if !h.started || h.finished || sent != |h.frames| || sent == 0 then None
         else if reason != 2 || sent != MAX_FRAMES then None
         else Some(h.(finished := true)))
      else None
  }

  function AcceptedDiag(h: Host, p: Packet): Option<Host> {
    if !h.started || h.finished || h.diagnosed || p.version != 0x100 || |p.payload| != 32 then None
    else
      var produced, sent, hz := U32(p.payload, 16), U32(p.payload, 20), U32(p.payload, 24);
      if hz == 0 || sent != |h.frames| || !(sent <= produced <= MAX_FRAMES) then None
      else Some(h.(diagnosed := true))
  }

  function AcceptedAudio(h: Host, p: Packet): Option<Host> {
    if !h.started || h.finished then None
    else if p.version != |h.frames| || |h.frames| >= MAX_FRAMES then None
    else if |p.payload| != 43 || p.payload[0] != 42 then None
    else Some(h.(frames := h.frames + [p.payload[1..]]))
  }

  /** What the host takes of the packets the module may encode, and what becomes of it. */
  lemma StatusTakenIff(h: Host, phase: int, reason: int, n: int)
    requires 0 <= phase < 65536 && 0 <= reason < 65536 && Fits32(n)
    ensures var after := Accepted(h, StatusPacket(phase, reason, n));
            && (after.Some? <==>
                  || (phase == READY && !h.started && n == 0 && reason == 0)
                  || (phase == STARTED && h.ready && !h.started && n == 0 && reason == 0)
                  || (phase == FINISHED && h.started && !h.finished && n == |h.frames| == MAX_FRAMES && reason == Code(LIMIT)))
            && (after.Some? ==>
                  after.value == if phase == READY then h.(ready := true)
                                 else if phase == STARTED then h.(started := true) else h.(finished := true))
  {
    StatusFields(phase, reason, n);
    hide StatusPacket, U16, U32;
  }

  lemma DiagTakenIff(h: Host, e: int, a: int, b: int, c: int, produced: int, sent: int, hz: int, reason: int)
    requires Fits32(produced) && Fits32(sent) && Fits32(hz)
    ensures var after := Accepted(h, DiagPacket(e, a, b, c, produced, sent, hz, reason));
            && (after.Some? <==> h.started && !h.finished && !h.diagnosed && hz != 0 && sent == |h.frames| && sent <= produced <= MAX_FRAMES)
            && (after.Some? ==> after.value == h.(diagnosed := true))
  {
    DiagFields(e, a, b, c, produced, sent, hz, reason);
    hide DiagPacket, U16, U32;
  }

  lemma AudioTakenIff(h: Host, sequence: nat, data: seq<Byte>)
    requires |data| < 256
    ensures var after := Accepted(h, AudioPacket(sequence, data));
            && (after.Some? <==> h.started && !h.finished && sequence == |h.frames| < MAX_FRAMES && |data| == 42)
            && (after.Some? ==> after.value == h.(frames := h.frames + [data]))
  {
    assert AudioPacket(sequence, data).payload[1..] == data;
  }

  lemma Repack32(b: seq<Byte>, i: nat)
    requires i + 4 <= |b|
    ensures Fits32(U32(b, i)) && LE32(U32(b, i)) == b[i..i + 4]
  {
    Repack16(b, i);
    Repack16(b, i + 2);
    assert U32(b, i) % 65536 == U16(b, i) && U32(b, i) / 65536 == U16(b, i + 2);
    assert b[i..i + 4] == b[i..i + 2] + b[i + 2..i + 4];
  }

  ghost predicate IsStatus(p: Packet) {
    exists phase, reason, n ::
      0 <= phase < 65536 && 0 <= reason < 65536 && Fits32(n) && p == StatusPacket(phase, reason, n)
  }

  ghost predicate IsDiag(p: Packet) {
    exists e, a, b, c, produced, sent, hz, reason ::
      Fits32(produced) && Fits32(sent) && Fits32(hz) && p == DiagPacket(e, a, b, c, produced, sent, hz, reason)
  }

  ghost predicate IsAudio(p: Packet) {
    exists sequence: nat, data :: |data| == 42 && p == AudioPacket(sequence, data)
  }

  /** The host takes no packet but those a module's own encoding yields: with the three lemmas above this says of every
      packet whether it is taken. */
  lemma OnlyTheModulesPackets(h: Host, p: Packet)
    requires Accepted(h, p).Some?
    ensures IsStatus(p) || IsDiag(p) || IsAudio(p)
  {
    if p.kind == 0x102 {
      StatusIsRead(h, p);
    } else if p.kind == 0x109 {
      DiagIsRead(h, p);
    } else {
      assert p == AudioPacket(p.version, p.payload[1..]);
    }
  }

  lemma StatusIsRead(h: Host, p: Packet)
    requires Accepted(h, p).Some? && p.kind == 0x102
    ensures IsStatus(p)
  {
    var b := p.payload;
    Repack16(b, 4);
    Repack16(b, 6);
    Repack32(b, 8);
    Repack32(b, 12);
    assert b == b[..4] + b[4..6] + b[6..8] + b[8..12] + b[12..16];
    hide U16, U32, LE16, LE32;
    assert p == StatusPacket(U16(b, 4), U16(b, 6), U32(b, 8));
  }

  lemma DiagIsRead(h: Host, p: Packet)
    requires Accepted(h, p).Some? && p.kind == 0x109
    ensures IsDiag(p)
  {
    var b := p.payload;
    forall i: nat | i + 4 <= |b|
      ensures Fits32(U32(b, i)) && LE32(U32(b, i)) == b[i..i + 4]
    {
      Repack32(b, i);
    }
    hide U32, LE32;
    assert b == b[0..4] + b[4..8] + b[8..12] + b[12..16] + b[16..20] + b[20..24] + b[24..28] + b[28..32];
    assert p == DiagPacket(U32(b, 0), U32(b, 4), U32(b, 8), U32(b, 12), U32(b, 16), U32(b, 20), U32(b, 24), U32(b, 28));
  }

  class HostCapture {
    var ready: bool
    var started: bool
    var finished: bool
    var frames: seq<seq<Byte>>
    var diagnosed: bool

    function Abs(): Host
      reads this
    {
      Host(ready, started, finished, frames, diagnosed)
    }

    constructor ()
      ensures Abs() == FRESH
    {
      ready, started, finished, frames, diagnosed := false, false, false, [], false;
    }

    /** `Capture.accept`; false where the host raises. */
    method Accept(p: Packet) returns (ok: bool)
      modifies this
      ensures ok <==> Accepted(old(Abs()), p).Some?
      ensures Abs() == Accepted(old(Abs()), p).GetOr(old(Abs()))
      ensures old(frames) <= frames && |frames| <= |old(frames)| + 1
      ensures frames != old(frames) ==> old(started) && !old(finished) && p.kind == 0x105 && p.version == |old(frames)| < MAX_FRAMES
      ensures finished != old(finished) ==> finished && started && |frames| == MAX_FRAMES && p.kind == 0x102
      ensures (old(ready) ==> ready) && (old(started) ==> started) && (old(diagnosed) ==> diagnosed)
    {
      if p.fill != FILL {
        return false;
      }
      if p.kind == 0x102 {
        if |p.payload| != 16 || p.version != 0x100 || p.payload[..4] != IDENTITY || U32(p.payload, 12) != RATE {
          return false;
        }
        var phase, reason, sent := U16(p.payload, 4), U16(p.payload, 6), U32(p.payload, 8);
        if phase == READY {
          if started || sent != 0 || reason != 0 {
            return false;
          }
          ready := true;
        } else if phase == STARTED {
          if !ready || started || sent != 0 || reason != 0 {
            return false;
          }
          started := true;
        } else if phase == FINISHED {
          if !started || finished || sent != |frames| || sent == 0 || reason != 2 || sent != MAX_FRAMES {
            return false;
          }
          finished := true;
        } else {
          return false;
        }
      } else if p.kind == 0x109 {
        if !started || finished || diagnosed || p.version != 0x100 || |p.payload| != 32 {
          return false;
        }
        var produced, sent, hz := U32(p.payload, 16), U32(p.payload, 20), U32(p.payload, 24);
        if hz == 0 || sent != |frames| || !(sent <= produced <= MAX_FRAMES) {
          return false;
        }
        diagnosed := true;
      } else if p.kind == 0x105 {
        if !started || finished || p.version != |frames| || |frames| >= MAX_FRAMES {
          return false;
        }
        if |p.payload| != 43 || p.payload[0] != 42 {
          return false;
        }
        frames := frames + [p.payload[1..]];
      } else {
        return false;
      }
      ok := true;
    }
  }

  /** Packets one after the other; None as soon as one is refused. */
  function AcceptAll(h: Host, ps: seq<Packet>): Option<Host>
    decreases |ps|
  {
    if ps == [] then Some(h)
    else
      match Accepted(h, ps[0])
      case None => None
      case Some(h1) => AcceptAll(h1, ps[1..])
  }

  // ----- what the module sends in one capture -----

  /** The codec keeps state over a capture: the bytes of a frame depend on all frames so far. None is an encoder error. */
  type Codec = seq<seq<Sample>> -> Option<seq<Byte>>

  ghost function AudioOf(codec: Codec, cut: seq<seq<Sample>>, i: nat): seq<Byte>
    requires i < |cut|
  {
    codec(cut[..i + 1]).GetOr([])
  }

  /** The audio packets of the first `n` frames, in order. */
  ghost function Stream(codec: Codec, cut: seq<seq<Sample>>, n: nat): (s: seq<Packet>)
    requires n <= |cut|
    ensures |s| == n
  {
    seq(n, i requires 0 <= i < n => AudioPacket(i, AudioOf(codec, cut, i)))
  }

  /** What the microphone delivered, frame by frame. */
  function Flat(cut: seq<seq<Sample>>): seq<Sample> {
    if cut == [] then [] else Flat(cut[..|cut| - 1]) + cut[|cut| - 1]
  }

  /** Everything a capture may put on the wire. The last kind is the claim of success: it names 250 frames, and is only
      made when 250 frames were cut and sent. */
  ghost predicate Legit(codec: Codec, cut: seq<seq<Sample>>, sent: nat, p: Packet) {
    || p == StatusPacket(READY, 0, 0)
    || p == StatusPacket(STARTED, 0, 0)
    || (exists i :: 0 <= i < sent <= |cut| && p == AudioPacket(i, AudioOf(codec, cut, i)))
    || p.kind == 0x109
    || (exists r, n :: r != LIMIT && p == StatusPacket(FAILED, Code(r), n))
    || (exists n :: p == StatusPacket(FINISHED, Code(STOP), n))
    || (p == StatusPacket(FINISHED, Code(LIMIT), MAX_FRAMES) && sent == |cut| == MAX_FRAMES)
  }

  ghost predicate AllLegit(codec: Codec, cut: seq<seq<Sample>>, sent: nat, wire: seq<Packet>) {
    forall p :: p in wire ==> Legit(codec, cut, sent, p)
  }

  /** What is legitimate stays so while more frames are cut and sent. */
  lemma LegitGrows(codec: Codec, cut: seq<seq<Sample>>, sent: nat, wire: seq<Packet>, cut': seq<seq<Sample>>, sent': nat)
    requires AllLegit(codec, cut, sent, wire) && cut <= cut' && sent <= sent' <= |cut'| && |cut'| <= MAX_FRAMES
    ensures AllLegit(codec, cut', sent', wire)
  {
    forall p | p in wire
      ensures Legit(codec, cut', sent', p)
    {
      assert Legit(codec, cut, sent, p);
      if i :| 0 <= i < sent <= |cut| && p == AudioPacket(i, AudioOf(codec, cut, i)) {
        assert cut'[..i + 1] == cut[..i + 1];
        assert p == AudioPacket(i, AudioOf(codec, cut', i));
      }
    }
  }

  lemma StreamExtends(codec: Codec, cut: seq<seq<Sample>>, cut': seq<seq<Sample>>, n: nat)
    requires cut <= cut' && n <= |cut|
    ensures Stream(codec, cut, n) == Stream(codec, cut', n)
  {
    forall i | 0 <= i < n
      ensures AudioOf(codec, cut, i) == AudioOf(codec, cut', i)
    {
      assert cut'[..i + 1] == cut[..i + 1];
    }
  }

  ghost predicate Books(codec: Codec, cut: seq<seq<Sample>>, sent: nat, wire: seq<Packet>) {
    sent <= |cut| <= MAX_FRAMES && AllLegit(codec, cut, sent, wire)
  }

  /** During a capture: the codec has seen the frames taken so far, and the wire carries the start and the sent frames. */
  ghost predicate LiveBooks(codec: Codec, cut: seq<seq<Sample>>, sent: nat, inflight: nat, encoded: seq<seq<Sample>>,
                            wire: seq<Packet>) {
    && sent + inflight <= |cut| && encoded == cut[..sent + inflight]
    && wire == [StatusPacket(STARTED, 0, 0)] + Stream(codec, cut, sent)
  }

  lemma BooksGrow(codec: Codec, cut: seq<seq<Sample>>, sent: nat, inflight: nat, encoded: seq<seq<Sample>>,
                  wire: seq<Packet>, cut': seq<seq<Sample>>)
    requires Books(codec, cut, sent, wire) && LiveBooks(codec, cut, sent, inflight, encoded, wire)
    requires cut <= cut' && |cut'| <= MAX_FRAMES
    ensures Books(codec, cut', sent, wire) && LiveBooks(codec, cut', sent, inflight, encoded, wire)
  {
    LegitGrows(codec, cut, sent, wire, cut', sent);
    StreamExtends(codec, cut, cut', sent);
    assert cut'[..sent + inflight] == cut[..sent + inflight];
  }

  // ----- the module -----

  datatype Frame = Frame(sequence: nat, pcm: seq<Sample>)

  datatype Offer = Offer(packet: Packet, took: bool)

  class Module {
    const codec: Codec
    const points: nat            // samples per audio callback
    var accepting: bool
    var captureEnd: Reason
    var queue: seq<Frame>
    var partial: seq<Sample>
    var produced: nat
    var active: bool
    var sent: nat
    var encoded: seq<seq<Sample>> // what the codec has seen in this capture

    ghost var heard: seq<Sample>       // samples taken in while accepting
    ghost var cut: seq<seq<Sample>>    // the frames cut from them and queued
    ghost var inflight: nat            // a frame taken off the queue but not yet sent
    ghost var wire: seq<Packet>        // what this capture has sent
    ghost var offers: seq<Offer>       // everything the line was ever offered, and whether it took it

    /** Queue and counters describe a contiguous window of the frames cut so far. */
    ghost predicate Window()
      reads this`queue, this`produced, this`cut, this`inflight, this`sent
    {
      && |queue| <= QUEUE_FRAMES && produced == |cut| <= MAX_FRAMES && inflight <= 1
      && sent + inflight + |queue| == produced
      && (forall i :: 0 <= i < |queue| ==> queue[i] == Frame(sent + inflight + i, cut[sent + inflight + i]))
    }

    /** No sample is lost or moved between the callback and the queue, except in an overflow, which ends the capture. */
    ghost predicate Conserved()
      reads this`partial, this`cut, this`heard, this`captureEnd
    {
      && |partial| < PCM_SAMPLES && (forall i :: 0 <= i < |cut| ==> |cut[i]| == PCM_SAMPLES)
      && Flat(cut) + partial <= heard
      && (captureEnd != OVERFLOW ==> Flat(cut) + partial == heard)
    }

    /** Taking samples ends for a reason: all frames are cut, or the queue is full. */
    ghost predicate Accounted()
      reads this`accepting, this`captureEnd, this`queue
    {
      if accepting then captureEnd == OK
      else captureEnd == LIMIT || (captureEnd == OVERFLOW && |queue| == QUEUE_FRAMES)
    }

    ghost predicate Flags()
      reads this`accepting, this`active, this`captureEnd, this`produced
    {
      && (accepting ==> active && captureEnd == OK && produced < MAX_FRAMES)
      && (captureEnd == LIMIT ==> produced == MAX_FRAMES)
      && (captureEnd == OK || captureEnd == LIMIT || captureEnd == OVERFLOW || captureEnd == BAD_INPUT)
    }

    ghost predicate Valid()
      reads this`queue, this`produced, this`cut, this`inflight, this`sent, this`partial, this`heard, this`captureEnd
      reads this`accepting, this`active, this`encoded, this`wire
    {
      && Flags() && Books(codec, cut, sent, wire)
      && (active ==> Window() && Conserved() && LiveBooks(codec, cut, sent, inflight, encoded, wire))
    }

    constructor (codec: Codec, points: nat)
      ensures Valid() && !active && this.codec == codec && wire == []
    {
      this.codec, this.points := codec, points;
      accepting, captureEnd, queue, partial, produced, active, sent, encoded := false, OK, [], [], 0, false, 0, [];
      heard, cut, inflight, wire, offers := [], [], 0, [], [];
    }

    /** A full frame goes to the queue if there is room; the 250th ends the capture, a full queue aborts it. */
    method QueueFrame()
      requires active && Flags() && Window() && accepting && |partial| == PCM_SAMPLES
      requires (forall i :: 0 <= i < |cut| ==> |cut[i]| == PCM_SAMPLES) && Flat(cut) + partial == heard
      modifies this`accepting, this`captureEnd, this`queue, this`partial, this`produced, this`cut
      ensures Flags() && Window() && Conserved() && partial == []
      ensures old(cut) <= cut && (accepting ==> |cut| == |old(cut)| + 1)
      ensures if |old(queue)| == QUEUE_FRAMES then captureEnd == OVERFLOW && queue == old(queue) && produced == old(produced)
              else queue == old(queue) + [Frame(old(produced), old(partial))] && produced == old(produced) + 1
                   && captureEnd == if produced == MAX_FRAMES then LIMIT else OK
      ensures accepting <==> captureEnd == OK
    {
      if |queue| == QUEUE_FRAMES {
        accepting, captureEnd := false, OVERFLOW;
      } else {
        queue := queue + [Frame(produced, partial)];
        produced := produced + 1;
        cut := cut + [partial];
        assert cut[..|cut| - 1] == old(cut);
        if produced == MAX_FRAMES {
          accepting, captureEnd := false, LIMIT;
        }
      }
      partial := [];
      assert Flat(cut) + partial == Flat(cut);
    }

    /** Copy samples until the partial frame is full or the block is used up. */
    method TakeSamples(block: seq<Sample>) returns (rest: seq<Sample>)
      requires active && Flags() && Window() && Conserved() && accepting && block != []
      modifies this`accepting, this`captureEnd, this`queue, this`partial, this`produced, this`cut, this`heard
      ensures Flags() && Window() && Conserved() && |rest| < |block| && heard + rest == old(heard) + block
      ensures old(cut) <= cut && old(heard) <= heard
      ensures old(queue) <= queue && Accounted()
    {
      var n := PCM_SAMPLES - |partial|;
      if n > |block| {
        n := |block|;
      }
      assert Flat(cut) + (partial + block[..n]) == heard + block[..n];
      partial := partial + block[..n];
      heard := heard + block[..n];
      rest := block[n..];
      if |partial| == PCM_SAMPLES {
        QueueFrame();
      }
    }

    /** A block the callback does not take. */
    predicate Blocked(samples: Option<seq<Sample>>) {
      samples.None? || |samples.value| != points
    }

    /** `we_stream_submit`: the audio callback, one critical section. */
    method Submit(samples: Option<seq<Sample>>)
      requires Valid()
      modifies this`accepting, this`captureEnd, this`queue, this`partial, this`produced, this`cut, this`heard
      ensures Valid() && old(cut) <= cut && old(heard) <= heard
      ensures accepting ==> samples.Some? && |samples.value| == points && heard == old(heard) + samples.value
      ensures !old(accepting) ==> !accepting && cut == old(cut) && queue == old(queue) && captureEnd == old(captureEnd)
      ensures old(queue) <= queue && (old(accepting) ==> Blocked(samples) || Accounted())
      ensures old(accepting) && Blocked(samples) ==>
                !accepting && captureEnd == BAD_INPUT && heard == old(heard) && queue == old(queue) && partial == old(partial)
    {
      if !accepting {
        return;
      }
      ghost var cut0 := cut;
      TakeBlock(samples);
      BooksGrow(codec, cut0, sent, inflight, encoded, wire, cut);
      hide Books, LiveBooks, Flags, Window, Conserved;
    }

    method TakeBlock(samples: Option<seq<Sample>>)
      requires active && accepting && Flags() && Window() && Conserved()
      modifies this`accepting, this`captureEnd, this`queue, this`partial, this`produced, this`cut, this`heard
      ensures Flags() && Window() && Conserved() && old(cut) <= cut && old(heard) <= heard
      ensures accepting ==> samples.Some? && |samples.value| == points && heard == old(heard) + samples.value
      ensures old(queue) <= queue && (Blocked(samples) || Accounted())
      ensures Blocked(samples) ==>
                !accepting && captureEnd == BAD_INPUT && heard == old(heard) && queue == old(queue) && partial == old(partial)
    {
      if samples.None? || |samples.value| != points {
        accepting, captureEnd := false, BAD_INPUT;
        return;
      }
      var rest := samples.GetOr([]);
      while accepting && rest != []
        invariant active && Flags() && Window() && Conserved()
        invariant old(cut) <= cut && old(heard) <= heard && heard + rest == old(heard) + samples.GetOr([])
        invariant old(queue) <= queue && Accounted()
        decreases |rest|
      {
        rest := TakeSamples(rest);
      }
    }

    /** The audio callback may run at any point of the worker's code. */
    method Callback()
      requires Valid()
      modifies this`accepting, this`captureEnd, this`queue, this`partial, this`produced, this`cut, this`heard
      ensures Valid() && old(cut) <= cut && old(heard) <= heard && old(queue) <= queue
      ensures !old(accepting) ==> !accepting && cut == old(cut) && queue == old(queue) && captureEnd == old(captureEnd)
    {
      var runs: bool := *;
      if runs {
        var block: seq<Sample> := *;
        var present: bool := *;
        Submit(if present then Some(block) else None);
      }
    }

    /** Take the oldest queued frame. */
    method Receive() returns (frame: Frame)
      requires Valid() && active && queue != [] && inflight == 0
      modifies this`queue, this`inflight, this`encoded
      ensures Valid() && inflight == 1 && frame == Frame(sent, cut[sent]) && frame == old(queue)[0]
      ensures queue == old(queue)[1..] && encoded == old(encoded) + [frame.pcm]
    {
      hide Books, Flat, Stream;
      frame := queue[0];
      queue := queue[1..];
      inflight := 1;
      encoded := encoded + [frame.pcm];
      assert cut[..sent + 1] == cut[..sent] + [cut[sent]];
    }

    /** The frame in flight has gone out. */
    method NoteSent(data: seq<Byte>)
      requires Valid() && active && inflight == 1 && codec(encoded) == Some(data)
      modifies this`inflight, this`wire, this`sent
      ensures Valid() && inflight == 0 && sent == old(sent) + 1
      ensures wire == old(wire) + [AudioPacket(old(sent), data)]
    {
      hide Flat;
      assert AudioOf(codec, cut, sent) == data;
      assert Stream(codec, cut, sent + 1) == Stream(codec, cut, sent) + [AudioPacket(sent, data)];
      LegitGrows(codec, cut, sent, wire, cut, sent + 1);
      inflight := 0;
      wire := wire + [AudioPacket(sent, data)];
      sent := sent + 1;
    }

    /** The codec failed, or made more than fits a packet. */
    predicate Unsendable(data: Option<seq<Byte>>) {
      data.None? || !(1 <= |data.value| <= 127)
    }

    /** `send_bytes`: whether the line takes all of a packet in time is up to the line. */
    method Transmit(p: Packet) returns (gone: bool)
      modifies this`offers
      ensures offers == old(offers) + [Offer(p, gone)]
    {
      gone := *;
      offers := offers + [Offer(p, gone)];
    }

    /** Encode and send one received frame, with callbacks in between. */
    method SendFrame() returns (reason: Reason)
      requires Valid() && active && queue != [] && inflight == 0
      modifies this`accepting, this`captureEnd, this`queue, this`partial, this`produced, this`cut, this`heard
      modifies this`inflight, this`encoded, this`wire, this`sent, this`offers
      ensures Valid() && active && old(queue)[1..] <= queue
      ensures var data := codec(old(encoded) + [old(queue)[0].pcm]);
              if Unsendable(data) then reason == CODEC && offers == old(offers)
              else
                && (reason == OK || reason == TX_TIMEOUT)
                && offers == old(offers) + [Offer(AudioPacket(old(sent), data.value), reason == OK)]
      ensures if reason == OK then inflight == 0 && sent == old(sent) + 1 else sent == old(sent)
    {
      hide Valid, AudioPacket;
      var frame := Receive();
      Callback();
      var data := codec(encoded);
      if Unsendable(data) {
        return CODEC;
      }
      var gone := Transmit(AudioPacket(sent, data.value));
      if !gone {
        return TX_TIMEOUT;
      }
      NoteSent(data.value);
      Callback();
      reason := OK;
    }

    /** `stop_capture` */
    method StopCapture()
      modifies this`accepting, this`captureEnd, this`partial, this`queue, this`encoded, this`active
      ensures !accepting && captureEnd == OK && partial == [] && queue == [] && encoded == [] && !active
    {
      accepting, captureEnd, partial := false, OK, [];
      queue, encoded := [], [];
      active := false;
    }

    /** A packet that may or may not make it onto the wire. */
    method TrySend(p: Packet) returns (gone: bool)
      requires Legit(codec, cut, sent, p) && !active && Valid()
      modifies this`wire, this`offers
      ensures Valid() && wire == old(wire) + if gone then [p] else []
      ensures offers == old(offers) + [Offer(p, gone)]
    {
      gone := Transmit(p);
      if gone {
        wire := wire + [p];
      }
    }

    /** End a capture: stop, then a diagnostic packet, then the verdict. */
    method Finish(reason: Reason)
      requires Valid() && active && reason != OK && reason != STOP
      requires reason == LIMIT ==> inflight == 0 && sent == |cut| == MAX_FRAMES
      modifies this`accepting, this`captureEnd, this`partial, this`queue, this`encoded, this`active, this`wire, this`offers
      ensures Valid() && !active
      ensures |offers| == |old(offers)| + 2 && old(offers) <= offers && offers[|old(offers)|].packet.kind == 0x109
      ensures offers[|old(offers)| + 1].packet == StatusPacket(if reason == LIMIT then FINISHED else FAILED, Code(reason), sent)
      ensures old(wire) == [StatusPacket(STARTED, 0, 0)] + Stream(codec, cut, sent) && old(wire) <= wire
      ensures |wire| <= |old(wire)| + 2
      ensures forall p :: p in wire[|old(wire)|..] ==>
                p.kind == 0x109 || p == StatusPacket(if reason == LIMIT then FINISHED else FAILED, Code(reason), sent)
      ensures StatusPacket(FINISHED, Code(LIMIT), MAX_FRAMES) in wire[|old(wire)|..] ==> reason == LIMIT
    {
      hide Stream, Flat;
      StopCapture();
      var elapsed: int, a: int, b: int, c: int, hz: int := *, *, *, *, *;
      var diag := DiagPacket(elapsed, a, b, c, produced, sent, hz, Code(reason));
      var phase := if reason == LIMIT then FINISHED else FAILED;
      var status := StatusPacket(phase, Code(reason), sent);
      assert Legit(codec, cut, sent, status);
      if reason != LIMIT {
        OtherVerdict(Code(reason), sent);
      }
      hide DiagPacket, StatusPacket, LiveBooks, Legit;
      SendVerdict(diag, status);
    }

    method SendVerdict(diag: Packet, status: Packet)
      requires Valid() && !active && Legit(codec, cut, sent, diag) && Legit(codec, cut, sent, status)
      modifies this`wire, this`offers
      ensures |offers| == |old(offers)| + 2 && old(offers) <= offers
      ensures offers[|old(offers)|].packet == diag && offers[|old(offers)| + 1].packet == status
      ensures Valid() && old(wire) <= wire && |wire| <= |old(wire)| + 2
      ensures forall p :: p in wire[|old(wire)|..] ==> p == diag || p == status
    {
      hide Books, LiveBooks, Legit, Flat;
      var gone := TrySend(diag);
      gone := TrySend(status);
    }

    /** The worker's share of one wake-up during a capture: up to eight frames go out, and the capture goes on unless the codec
        or the line fails, the callback ended it, or the clock runs out. */
    method Round(late: bool) returns (reason: Reason)
      requires Valid() && active && inflight == 0
      modifies this
      ensures Valid() && (active ==> inflight == 0) && old(offers) <= offers
      ensures active <==> reason == OK
      ensures active ==> !late && (captureEnd == OK || (captureEnd == LIMIT && queue != []))
      ensures reason == OK || reason == LIMIT || reason == BAD_INPUT || reason == OVERFLOW || reason == CAPTURE_TIMEOUT ==>
                sent >= old(sent) + Least(QUEUE_FRAMES, |old(queue)|)
      ensures reason == CAPTURE_TIMEOUT ==> late
      ensures reason != OK ==>
                && offers != []
                && offers[|offers| - 1].packet == StatusPacket(if reason == LIMIT then FINISHED else FAILED, Code(reason), sent)
      ensures StatusPacket(FINISHED, Code(LIMIT), MAX_FRAMES) in wire ==>
                && sent == |cut| == MAX_FRAMES
                && [StatusPacket(STARTED, 0, 0)] + Stream(codec, cut, MAX_FRAMES) <= wire
    {
      hide Valid, Stream, Flat, StatusPacket;
      reason := SendBatch();
      Callback();
      InTheMiddle();
      if reason == OK && captureEnd != OK && (captureEnd != LIMIT || queue == []) {
        reason := captureEnd;
      }
      if reason == OK && late {
        reason := CAPTURE_TIMEOUT;
      }
      if reason != OK {
        Finish(reason);
      }
    }

    /** What a capture that goes on has put on the wire, and when its last frame is out. */
    lemma InTheMiddle()
      requires Valid() && active
      ensures sent + inflight <= |cut| && wire == [StatusPacket(STARTED, 0, 0)] + Stream(codec, cut, sent)
      ensures StatusPacket(FINISHED, Code(LIMIT), MAX_FRAMES) !in wire
      ensures captureEnd == LIMIT && queue == [] && inflight == 0 ==> sent == |cut| == MAX_FRAMES
      ensures captureEnd == OK || captureEnd == LIMIT || captureEnd == OVERFLOW || captureEnd == BAD_INPUT
    {
      NoVerdictYet(codec, cut, sent, wire);
    }

    /** At most eight frames, while there are any. */
    method SendBatch() returns (reason: Reason)
      requires Valid() && active && inflight == 0
      modifies this`accepting, this`captureEnd, this`queue, this`partial, this`produced, this`cut, this`heard
      modifies this`inflight, this`encoded, this`wire, this`sent, this`offers
      ensures Valid() && active && sent >= old(sent) && old(offers) <= offers
      ensures reason == OK || reason == CODEC || reason == TX_TIMEOUT
      ensures reason == OK ==> inflight == 0 && sent >= old(sent) + Least(QUEUE_FRAMES, |old(queue)|)
      ensures reason == TX_TIMEOUT ==> offers != [] && !offers[|offers| - 1].took
    {
      hide Valid;
      reason := OK;
      var i := 0;
      while i < QUEUE_FRAMES && reason == OK
        invariant Valid() && active && i <= QUEUE_FRAMES && sent >= old(sent) && old(offers) <= offers
        invariant reason == OK || reason == CODEC || reason == TX_TIMEOUT
        invariant reason == OK ==> inflight == 0 && sent == old(sent) + i && i + |queue| >= |old(queue)|
        invariant reason == TX_TIMEOUT ==> offers != [] && !offers[|offers| - 1].took
        decreases QUEUE_FRAMES - i, reason == OK
      {
        Callback();
        if queue == [] {
          break;
        }
        reason := SendFrame();
        i := i + 1;
      }
    }

    /** START: a new capture, if none is running. `initialised` says whether the codec could be set up. */
    method Start(initialised: bool)
      requires Valid() && !active
      modifies this
      ensures Valid() && (active ==> inflight == 0 && cut == [] && heard == [] && sent == 0)
      ensures |offers| == |old(offers)| + 1 && old(offers) <= offers
      ensures if initialised then offers[|old(offers)|] == Offer(StatusPacket(STARTED, 0, 0), active) && (active ==> accepting)
              else offers[|old(offers)|].packet == StatusPacket(FAILED, Code(CODEC), 0) && !active
    {
      hide Flat, Stream, Legit, Books, LiveBooks;
      StopCapture();
      sent, produced := 0, 0;
      cut, heard, inflight, wire := [], [], 0, [];
      NothingSent(codec);
      if !initialised {
        FailedIsLegit(codec);
        var gone := TrySend(StatusPacket(FAILED, Code(CODEC), 0));
        return;
      }
      Begin();
    }

    method Begin()
      requires Valid() && !active && cut == [] && heard == [] && partial == [] && queue == [] && encoded == [] && wire == []
      requires sent == produced == inflight == 0 && captureEnd == OK
      modifies this`wire, this`offers, this`active, this`accepting
      ensures Valid() && offers == old(offers) + [Offer(StatusPacket(STARTED, 0, 0), active)] && (active ==> accepting)
    {
      hide Flat, Stream, Books;
      NothingSent(codec);
      var gone := TrySend(StatusPacket(STARTED, 0, 0));
      if gone {
        active, accepting := true, true;
      }
    }

    /** STOP: whatever is running ends, with a verdict the host does not take for success. */
    method Stop()
      requires Valid()
      modifies this`accepting, this`captureEnd, this`partial, this`queue, this`encoded, this`active, this`wire, this`offers
      ensures Valid() && !active && !accepting
      ensures offers == old(offers) + [Offer(StatusPacket(FINISHED, Code(STOP), sent), wire != old(wire))]
      ensures wire == old(wire) || wire == old(wire) + [StatusPacket(FINISHED, Code(STOP), sent)]
    {
      hide Flat, Stream;
      StopCapture();
      assert Legit(codec, cut, sent, StatusPacket(FINISHED, Code(STOP), sent));
      var gone := TrySend(StatusPacket(FINISHED, Code(STOP), sent));
    }

    /** QUERY is answered only between captures. */
    method Query()
      requires Valid() && !active
      modifies this`wire, this`offers
      ensures Valid() && !active
      ensures offers == old(offers) + [Offer(StatusPacket(READY, 0, 0), wire != old(wire))]
      ensures wire == old(wire) || wire == old(wire) + [StatusPacket(READY, 0, 0)]
    {
      var gone := TrySend(StatusPacket(READY, 0, 0));
    }
  }

  function Least(a: nat, b: nat): nat {
    if a < b then a else b
  }

  lemma NothingSent(codec: Codec)
    ensures Flat([]) == [] && Stream(codec, [], 0) == [] && Books(codec, [], 0, [])
    ensures Legit(codec, [], 0, StatusPacket(STARTED, 0, 0))
  {
  }

  lemma FailedIsLegit(codec: Codec)
    ensures Legit(codec, [], 0, StatusPacket(FAILED, Code(CODEC), 0))
  {
  }

  lemma OtherVerdict(code: int, n: int)
    requires 0 <= code < 65536 && Fits32(n)
    ensures StatusPacket(FAILED, code, n) != StatusPacket(FINISHED, Code(LIMIT), MAX_FRAMES)
    ensures code != 2 ==> StatusPacket(FINISHED, code, n) != StatusPacket(FINISHED, Code(LIMIT), MAX_FRAMES)
  {
    StatusFields(FAILED, code, n);
    StatusFields(FINISHED, code, n);
    StatusFields(FINISHED, Code(LIMIT), MAX_FRAMES);
  }

  lemma NoVerdictYet(codec: Codec, cut: seq<seq<Sample>>, sent: nat, wire: seq<Packet>)
    requires sent <= |cut| && wire == [StatusPacket(STARTED, 0, 0)] + Stream(codec, cut, sent)
    ensures StatusPacket(FINISHED, Code(LIMIT), MAX_FRAMES) !in wire
  {
    StatusFields(STARTED, 0, 0);
    StatusFields(FINISHED, Code(LIMIT), MAX_FRAMES);
  }

  // ----- end to end -----

  /** Host frames are the module's, as far as they go. */
  ghost predicate Matches(codec: Codec, cut: seq<seq<Sample>>, h: Host) {
    |h.frames| <= |cut| && forall i :: 0 <= i < |h.frames| ==> h.frames[i] == AudioOf(codec, cut, i)
  }

  lemma AcceptMatches(codec: Codec, cut: seq<seq<Sample>>, sent: nat, h: Host, p: Packet)
    requires Matches(codec, cut, h) && sent <= |cut| <= MAX_FRAMES && Legit(codec, cut, sent, p) && Accepted(h, p).Some?
    ensures Matches(codec, cut, Accepted(h, p).value)
    ensures Accepted(h, p).value.finished && !h.finished ==> |h.frames| == MAX_FRAMES
    ensures h.finished ==> Accepted(h, p).value.finished && Accepted(h, p).value.frames == h.frames
  {
    if p.kind == 0x105 {
      var i :| 0 <= i < sent <= |cut| && p == AudioPacket(i, AudioOf(codec, cut, i));
      assert p.payload[1..] == AudioOf(codec, cut, i);
    }
  }

  /** Whatever the channel drops, repeats or reorders: if the host finishes, its 250 frames are the encodings of the
      module's frames 0 to 249, in order. */
  lemma {:induction false} FinishedIsComplete(codec: Codec, cut: seq<seq<Sample>>, sent: nat, wire: seq<Packet>,
                                              h: Host, received: seq<Packet>)
    requires Books(codec, cut, sent, wire) && Matches(codec, cut, h) && (h.finished ==> |h.frames| == MAX_FRAMES)
    requires forall p :: p in received ==> p in wire
    requires AcceptAll(h, received).Some?
    ensures var end := AcceptAll(h, received).value;
            Matches(codec, cut, end) && (end.finished ==> |end.frames| == |cut| == MAX_FRAMES)
    decreases |received|
  {
    if received != [] {
      AcceptMatches(codec, cut, sent, h, received[0]);
      FinishedIsComplete(codec, cut, sent, wire, Accepted(h, received[0]).value, received[1..]);
    }
  }

  /** A host that has not heard STARTED has nothing, and one that has takes no second one. */
  lemma {:induction false} BeforeStarted(h: Host, received: seq<Packet>)
    requires StatusPacket(STARTED, 0, 0) in received && AcceptAll(h, received).Some?
    ensures !h.started
    decreases |received|
  {
    StatusFields(STARTED, 0, 0);
    if received[0] != StatusPacket(STARTED, 0, 0) {
      assert StatusPacket(STARTED, 0, 0) in received[1..];
      BeforeStarted(Accepted(h, received[0]).value, received[1..]);
    }
  }

  lemma {:induction false} AcceptInParts(h: Host, a: seq<Packet>, b: seq<Packet>)
    ensures AcceptAll(h, a + b) == if AcceptAll(h, a).None? then None else AcceptAll(AcceptAll(h, a).value, b)
    decreases |a|
  {
    if a == [] {
      assert a + b == b;
    } else {
      assert (a + b)[0] == a[0] && (a + b)[1..] == a[1..] + b;
      if Accepted(h, a[0]).Some? {
        AcceptInParts(Accepted(h, a[0]).value, a[1..], b);
      }
    }
  }

  lemma {:induction false} NothingBeforeStarted(h: Host, received: seq<Packet>)
    requires h.frames == [] && !h.finished && AcceptAll(h, received).Some? && !AcceptAll(h, received).value.started
    ensures AcceptAll(h, received).value.frames == [] && !AcceptAll(h, received).value.finished
    decreases |received|
  {
    if received != [] {
      if Accepted(h, received[0]).value.started {
        StartedStays(Accepted(h, received[0]).value, received[1..]);
      }
      NothingBeforeStarted(Accepted(h, received[0]).value, received[1..]);
    }
  }

  lemma {:induction false} StartedStays(h: Host, received: seq<Packet>)
    requires AcceptAll(h, received).Some? && h.started
    ensures AcceptAll(h, received).value.started
    decreases |received|
  {
    if received != [] {
      StartedStays(Accepted(h, received[0]).value, received[1..]);
    }
  }

  /** Whatever earlier captures left in the line: if this capture's STARTED arrives, the host's frames are this capture's. */
  lemma StartedIsFresh(codec: Codec, cut: seq<seq<Sample>>, sent: nat, wire: seq<Packet>, earlier: seq<Packet>,
                       received: seq<Packet>)
    requires Books(codec, cut, sent, wire) && forall p :: p in received ==> p in wire
    requires StatusPacket(STARTED, 0, 0) in received && AcceptAll(FRESH, earlier + received).Some?
    ensures var end := AcceptAll(FRESH, earlier + received).value;
            Matches(codec, cut, end) && (end.finished ==> |end.frames| == |cut| == MAX_FRAMES)
  {
    AcceptInParts(FRESH, earlier, received);
    var h := AcceptAll(FRESH, earlier).value;
    BeforeStarted(h, received);
    NothingBeforeStarted(FRESH, earlier);
    FinishedIsComplete(codec, cut, sent, wire, h, received);
  }

  /** The frames are consecutive slices of what the microphone delivered. */
  lemma {:induction false} FrameIsSlice(cut: seq<seq<Sample>>, i: nat)
    requires i < |cut| && forall k :: 0 <= k < |cut| ==> |cut[k]| == PCM_SAMPLES
    ensures |Flat(cut)| == PCM_SAMPLES * |cut|
    ensures Flat(cut)[PCM_SAMPLES * i..PCM_SAMPLES * (i + 1)] == cut[i]
    decreases |cut|
  {
    var rest, last := cut[..|cut| - 1], cut[|cut| - 1];
    if rest == [] {
      assert Flat(cut) == last;
    } else if i < |rest| {
      FrameIsSlice(rest, i);
      assert Flat(cut)[PCM_SAMPLES * i..PCM_SAMPLES * (i + 1)] == Flat(rest)[PCM_SAMPLES * i..PCM_SAMPLES * (i + 1)];
    } else {
      FrameIsSlice(rest, 0);
    }
  }

  // ----- the other direction: nothing lost, then success -----

  /** `f` goes on from `from` with the encodings of the module's frames. */
  ghost predicate GoesOn(codec: Codec, cut: seq<seq<Sample>>, from: seq<seq<Byte>>, f: seq<seq<Byte>>) {
    && |f| <= |cut| && from <= f && forall i :: |from| <= i < |f| ==> f[i] == AudioOf(codec, cut, i)
  }

  lemma {:induction false} TailAccepted(codec: Codec, cut: seq<seq<Sample>>, h: Host, n: nat, rest: seq<Packet>)
    requires n <= |cut| == MAX_FRAMES && h.started && !h.finished && |h.frames| <= n
    requires forall i :: 0 <= i < MAX_FRAMES ==> |AudioOf(codec, cut, i)| == 42
    ensures exists f :: |f| == n && GoesOn(codec, cut, h.frames, f)
              && AcceptAll(h, Stream(codec, cut, n)[|h.frames|..] + rest) == AcceptAll(h.(frames := f), rest)
    decreases n - |h.frames|
  {
    hide AudioOf, AcceptAll, Stream;
    var k := |h.frames|;
    if k == n {
      assert Stream(codec, cut, n)[k..] + rest == rest;
      assert h.(frames := h.frames) == h;
      assert GoesOn(codec, cut, h.frames, h.frames);
    } else {
      var bytes := AudioOf(codec, cut, k);
      var h1 := h.(frames := h.frames + [bytes]);
      var todo := Stream(codec, cut, n)[k + 1..] + rest;
      StreamFrom(codec, cut, n, k, rest);
      FirstAccepted(h, bytes, todo);
      TailAccepted(codec, cut, h1, n, rest);
      var f :| |f| == n && GoesOn(codec, cut, h1.frames, f)
               && AcceptAll(h1, Stream(codec, cut, n)[|h1.frames|..] + rest) == AcceptAll(h1.(frames := f), rest);
      assert h1.(frames := f) == h.(frames := f);
      assert f[k] == h1.frames[k];
      assert GoesOn(codec, cut, h.frames, f);
    }
  }

  lemma StreamFrom(codec: Codec, cut: seq<seq<Sample>>, n: nat, k: nat, rest: seq<Packet>)
    requires k < n <= |cut|
    ensures Stream(codec, cut, n)[k..] + rest
            == [AudioPacket(k, AudioOf(codec, cut, k))] + (Stream(codec, cut, n)[k + 1..] + rest)
  {
    hide AudioOf, AudioPacket;
  }

  lemma FirstAccepted(h: Host, bytes: seq<Byte>, rest: seq<Packet>)
    requires h.started && !h.finished && |h.frames| < MAX_FRAMES && |bytes| == 42
    ensures AcceptAll(h, [AudioPacket(|h.frames|, bytes)] + rest) == AcceptAll(h.(frames := h.frames + [bytes]), rest)
  {
    AudioTakenIff(h, |h.frames|, bytes);
    hide Accepted, AudioPacket;
    assert ([AudioPacket(|h.frames|, bytes)] + rest)[1..] == rest;
  }

  lemma StreamAccepted(codec: Codec, cut: seq<seq<Sample>>, h: Host, n: nat, rest: seq<Packet>)
    requires n <= |cut| == MAX_FRAMES && h.started && !h.finished && Matches(codec, cut, h) && |h.frames| <= n
    requires forall i :: 0 <= i < MAX_FRAMES ==> |AudioOf(codec, cut, i)| == 42
    ensures exists f :: |f| == n && Matches(codec, cut, h.(frames := f))
              && AcceptAll(h, Stream(codec, cut, n)[|h.frames|..] + rest) == AcceptAll(h.(frames := f), rest)
  {
    hide AcceptAll, AudioOf, Stream;
    TailAccepted(codec, cut, h, n, rest);
    var f :| |f| == n && GoesOn(codec, cut, h.frames, f)
             && AcceptAll(h, Stream(codec, cut, n)[|h.frames|..] + rest) == AcceptAll(h.(frames := f), rest);
    assert Matches(codec, cut, h.(frames := f));
  }

  /** A capture that arrives whole - READY, then everything a complete capture sends - is accepted to the end. */
  lemma WholeIsFinished(codec: Codec, cut: seq<seq<Sample>>, e: int, a: int, b: int, c: int, hz: int)
    requires |cut| == MAX_FRAMES && 0 < hz < 0x1_0000_0000
    requires forall i :: 0 <= i < MAX_FRAMES ==> |AudioOf(codec, cut, i)| == 42
    ensures var wire := [StatusPacket(STARTED, 0, 0)] + Stream(codec, cut, MAX_FRAMES)
                        + [DiagPacket(e, a, b, c, MAX_FRAMES, MAX_FRAMES, hz, Code(LIMIT)),
                           StatusPacket(FINISHED, Code(LIMIT), MAX_FRAMES)];
            var end := AcceptAll(FRESH, [StatusPacket(READY, 0, 0)] + wire);
            end.Some? && end.value.finished && Matches(codec, cut, end.value) && |end.value.frames| == MAX_FRAMES
  {
    hide Accepted, AcceptAll, Stream, AudioOf, DiagPacket, StatusPacket;
    var ready, started := StatusPacket(READY, 0, 0), StatusPacket(STARTED, 0, 0);
    var tail := [DiagPacket(e, a, b, c, MAX_FRAMES, MAX_FRAMES, hz, Code(LIMIT)), StatusPacket(FINISHED, Code(LIMIT), MAX_FRAMES)];
    var stream := Stream(codec, cut, MAX_FRAMES);
    var h := Host(true, true, false, [], false);
    Opening(stream + tail);
    assert [ready] + ([started] + stream + tail) == [ready, started] + (stream + tail);
    StreamAccepted(codec, cut, h, MAX_FRAMES, tail);
    assert stream[0..] == stream;
    var f :| |f| == MAX_FRAMES && Matches(codec, cut, h.(frames := f))
             && AcceptAll(h, stream[|h.frames|..] + tail) == AcceptAll(h.(frames := f), tail);
    Closing(f, e, a, b, c, hz);
    assert stream[|h.frames|..] == stream;
    assert AcceptAll(FRESH, [ready] + ([started] + stream + tail)) == Some(Host(true, true, true, f, true));
  }

  /** Without this capture's STARTED an earlier capture may show through: its first packets and all but the first of this
      one make a capture that the host calls finished. */
  lemma MixedCapture(codec: Codec, earlier: seq<seq<Sample>>, cut: seq<seq<Sample>>)
    requires |earlier| >= 1 && |cut| == MAX_FRAMES && |AudioOf(codec, earlier, 0)| == 42
    requires forall i :: 0 <= i < MAX_FRAMES ==> |AudioOf(codec, cut, i)| == 42
    requires AudioOf(codec, earlier, 0) != AudioOf(codec, cut, 0)
    ensures var left := [StatusPacket(READY, 0, 0), StatusPacket(STARTED, 0, 0), AudioPacket(0, AudioOf(codec, earlier, 0))];
            var received := Stream(codec, cut, MAX_FRAMES)[1..] + [StatusPacket(FINISHED, Code(LIMIT), MAX_FRAMES)];
            var end := AcceptAll(FRESH, left + received);
            end.Some? && end.value.finished && !Matches(codec, cut, end.value)
  {
    hide AcceptAll, StatusPacket, AudioOf, Stream;
    var ready, started, fin := StatusPacket(READY, 0, 0), StatusPacket(STARTED, 0, 0), StatusPacket(FINISHED, Code(LIMIT), MAX_FRAMES);
    var first := AudioOf(codec, earlier, 0);
    var received := Stream(codec, cut, MAX_FRAMES)[1..] + [fin];
    Opening([AudioPacket(0, first)] + received);
    assert [ready, started, AudioPacket(0, first)] + received == [ready, started] + ([AudioPacket(0, first)] + received);
    var h := Host(true, true, false, [first], false);
    FirstAudio(first, received);
    TailAccepted(codec, cut, h, MAX_FRAMES, [fin]);
    var f :| |f| == MAX_FRAMES && GoesOn(codec, cut, h.frames, f)
             && AcceptAll(h, Stream(codec, cut, MAX_FRAMES)[|h.frames|..] + [fin]) == AcceptAll(h.(frames := f), [fin]);
    assert f[0] == h.frames[0];
    LastVerdict(f);
  }

  lemma FirstAudio(first: seq<Byte>, rest: seq<Packet>)
    requires |first| == 42
    ensures AcceptAll(Host(true, true, false, [], false), [AudioPacket(0, first)] + rest)
            == AcceptAll(Host(true, true, false, [first], false), rest)
  {
    FirstAccepted(Host(true, true, false, [], false), first, rest);
    var none: seq<seq<Byte>> := [];
    assert none + [first] == [first];
  }

  lemma LastVerdict(f: seq<seq<Byte>>)
    requires |f| == MAX_FRAMES
    ensures AcceptAll(Host(true, true, false, f, false), [StatusPacket(FINISHED, Code(LIMIT), MAX_FRAMES)])
            == Some(Host(true, true, true, f, false))
  {
    hide StatusPacket, U16;
    var fin := StatusPacket(FINISHED, Code(LIMIT), MAX_FRAMES);
    StatusFields(FINISHED, Code(LIMIT), MAX_FRAMES);
    assert Accepted(Host(true, true, false, f, false), fin) == Some(Host(true, true, true, f, false));
    assert [fin][1..] == [];
  }

  /** READY and STARTED open a capture on a host that has heard nothing yet. */
  lemma Opening(rest: seq<Packet>)
    ensures AcceptAll(FRESH, [StatusPacket(READY, 0, 0), StatusPacket(STARTED, 0, 0)] + rest)
            == AcceptAll(Host(true, true, false, [], false), rest)
  {
    hide StatusPacket;
    var all := [StatusPacket(READY, 0, 0), StatusPacket(STARTED, 0, 0)] + rest;
    StatusFields(READY, 0, 0);
    StatusFields(STARTED, 0, 0);
    var h1 := Host(true, false, false, [], false);
    assert Accepted(FRESH, all[0]) == Some(h1);
    assert Accepted(h1, all[1]) == Some(Host(true, true, false, [], false));
    assert all[1..][0] == all[1] && all[1..][1..] == rest;
  }

  /** The diagnostic packet and the verdict close a capture of 250 accepted frames. */
  lemma Closing(f: seq<seq<Byte>>, e: int, a: int, b: int, c: int, hz: int)
    requires |f| == MAX_FRAMES && 0 < hz < 0x1_0000_0000
    ensures AcceptAll(Host(true, true, false, f, false),
                      [DiagPacket(e, a, b, c, MAX_FRAMES, MAX_FRAMES, hz, Code(LIMIT)),
                       StatusPacket(FINISHED, Code(LIMIT), MAX_FRAMES)])
            == Some(Host(true, true, true, f, true))
  {
    hide StatusPacket, DiagPacket, LE32, LE16, U16;
    var diag := DiagPacket(e, a, b, c, MAX_FRAMES, MAX_FRAMES, hz, Code(LIMIT));
    var fin := StatusPacket(FINISHED, Code(LIMIT), MAX_FRAMES);
    DiagFields(e, a, b, c, MAX_FRAMES, MAX_FRAMES, hz, Code(LIMIT));
    StatusFields(FINISHED, Code(LIMIT), MAX_FRAMES);
    var h := Host(true, true, false, f, false);
    assert Accepted(h, diag) == Some(h.(diagnosed := true));
    assert Accepted(h.(diagnosed := true), fin) == Some(Host(true, true, true, f, true));
    assert [fin][1..] == [] && AcceptAll(h.(diagnosed := true), [fin]) == Some(Host(true, true, true, f, true));
    assert [diag, fin][1..] == [fin];
  }
}
