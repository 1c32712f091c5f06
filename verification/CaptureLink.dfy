/** A capture over the line: the module's packets as bytes, the host's decoder, and the host's capture on top of it. */
module CaptureLink {
  import opened Optional
  import opened Wire
  import opened Capture
  import D = Decoder

  const RESET := D.State([], None, None, 0, 0, 0, 0)

  /** What the host makes of the bytes: the packets handed out, and whether its capture accepts them all. */
  function Received(max: int, idle: real, chunks: seq<D.Chunk>): seq<Packet> {
    D.Run(RESET, max, idle, chunks).1
  }

  /** The decoder counted nothing but `noise` discarded bytes: the host does not abort. */
  predicate Undisturbed(max: int, idle: real, noise: nat, chunks: seq<D.Chunk>) {
    var t := D.Run(RESET, max, idle, chunks).0;
    t.discarded == noise && t.checksumErrors == t.lengthErrors == t.timeouts == 0
  }

  /** The bytes of whole packets after unmarked noise, in chunks that leave no gap for the decoder to expire. */
  ghost predicate Carries(max: int, idle: real, noise: seq<Byte>, ps: seq<Packet>, chunks: seq<D.Chunk>) {
    && D.NoMark(noise) && ps != [] && (forall p :: p in ps ==> Encodable(p) && |p.payload| <= max)
    && D.Bytes(chunks) == noise + EncodeAll(ps) && D.Timely(RESET, max, idle, chunks)
  }

  lemma PacketsArrive(max: int, idle: real, noise: seq<Byte>, ps: seq<Packet>, chunks: seq<D.Chunk>)
    requires Carries(max, idle, noise, ps, chunks)
    ensures Received(max, idle, chunks) == ps && Undisturbed(max, idle, |noise|, chunks)
  {
    D.SessionRoundTrip(max, idle, noise, ps, chunks);
  }

  /** A complete capture, its bytes cut in any way, ends in a finished host with the encodings of the module's frames. */
  lemma WholeCaptureArrives(codec: Codec, cut: seq<seq<Sample>>, e: int, a: int, b: int, c: int, hz: int,
                            max: int, idle: real, noise: seq<Byte>, chunks: seq<D.Chunk>)
    requires |cut| == MAX_FRAMES && 0 < hz < 0x1_0000_0000
    requires forall i :: 0 <= i < MAX_FRAMES ==> |AudioOf(codec, cut, i)| == 42
    requires var wire := [StatusPacket(STARTED, 0, 0)] + Stream(codec, cut, MAX_FRAMES)
                         + [DiagPacket(e, a, b, c, MAX_FRAMES, MAX_FRAMES, hz, Code(LIMIT)),
                            StatusPacket(FINISHED, Code(LIMIT), MAX_FRAMES)];
             max >= 43 && D.NoMark(noise) && D.Timely(RESET, max, idle, chunks)
             && D.Bytes(chunks) == noise + EncodeAll([StatusPacket(READY, 0, 0)] + wire)
    ensures var end := AcceptAll(FRESH, Received(max, idle, chunks));
            && Undisturbed(max, idle, |noise|, chunks)
            && end.Some? && end.value.finished && Matches(codec, cut, end.value) && |end.value.frames| == MAX_FRAMES
  {
    hide AcceptAll, Matches, D.Timely, D.NoMark, D.Bytes, EncodeAll;
    var diag, fin := DiagPacket(e, a, b, c, MAX_FRAMES, MAX_FRAMES, hz, Code(LIMIT)), StatusPacket(FINISHED, Code(LIMIT), MAX_FRAMES);
    var stream := Stream(codec, cut, MAX_FRAMES);
    var ps := [StatusPacket(READY, 0, 0)] + ([StatusPacket(STARTED, 0, 0)] + stream + [diag, fin]);
    WholeIsFinished(codec, cut, e, a, b, c, hz);
    forall p | p in ps
      ensures Encodable(p) && |p.payload| <= max
    {
      if p in stream {
        var i :| 0 <= i < |stream| && stream[i] == p;
        assert p == AudioPacket(i, AudioOf(codec, cut, i));
      }
    }
    PacketsArrive(max, idle, noise, ps, chunks);
  }

  /** Whatever whole packets the line drops, repeats or reorders, and whatever earlier captures left in it: if this capture's
      STARTED arrives and the host finishes, it has this capture's 250 frames. */
  lemma FinishedOverLine(codec: Codec, cut: seq<seq<Sample>>, sent: nat, wire: seq<Packet>, earlier: seq<Packet>,
                         received: seq<Packet>, max: int, idle: real, noise: seq<Byte>, chunks: seq<D.Chunk>)
    requires Books(codec, cut, sent, wire) && (forall p :: p in received ==> p in wire)
    requires StatusPacket(STARTED, 0, 0) in received && Carries(max, idle, noise, earlier + received, chunks)
    requires AcceptAll(FRESH, Received(max, idle, chunks)).Some?
    ensures var end := AcceptAll(FRESH, Received(max, idle, chunks)).value;
            Matches(codec, cut, end) && (end.finished ==> |end.frames| == |cut| == MAX_FRAMES)
  {
    PacketsArrive(max, idle, noise, earlier + received, chunks);
    hide Received;
    StartedIsFresh(codec, cut, sent, wire, earlier, received);
  }

  /** The other way round: while the host has no reason to abort, what came in is the encodings of the packets its capture was
      given, whole and in order, and the beginning of one more. Damage that goes unseen is damage by whole packets. */
  lemma NothingUnseen(max: int, idle: real, chunks: seq<D.Chunk>)
    requires D.Timely(RESET, max, idle, chunks) && Undisturbed(max, idle, 0, chunks)
    ensures var t := D.Run(RESET, max, idle, chunks).0;
            D.Bytes(chunks) == EncodeAll(Received(max, idle, chunks)) + t.buffer
  {
    D.SessionExact(RESET, max, idle, chunks);
    assert RESET.buffer + D.Bytes(chunks) == D.Bytes(chunks);
  }

  /** Whole packets can go unseen: without its STARTED a capture is finished with an earlier one's frame, and the decoder has
      nothing to complain about. */
  lemma MixedCaptureUnseen(codec: Codec, earlier: seq<seq<Sample>>, cut: seq<seq<Sample>>, max: int, idle: real, chunks: seq<D.Chunk>)
    requires |earlier| >= 1 && |cut| == MAX_FRAMES && |AudioOf(codec, earlier, 0)| == 42
    requires forall i :: 0 <= i < MAX_FRAMES ==> |AudioOf(codec, cut, i)| == 42
    requires AudioOf(codec, earlier, 0) != AudioOf(codec, cut, 0)
    requires var left := [StatusPacket(READY, 0, 0), StatusPacket(STARTED, 0, 0), AudioPacket(0, AudioOf(codec, earlier, 0))];
             var received := Stream(codec, cut, MAX_FRAMES)[1..] + [StatusPacket(FINISHED, Code(LIMIT), MAX_FRAMES)];
             Carries(max, idle, [], left + received, chunks)
    ensures var end := AcceptAll(FRESH, Received(max, idle, chunks));
            Undisturbed(max, idle, 0, chunks) && end.Some? && end.value.finished && !Matches(codec, cut, end.value)
  {
    hide AcceptAll, Matches, Carries, Received, Undisturbed;
    var left := [StatusPacket(READY, 0, 0), StatusPacket(STARTED, 0, 0), AudioPacket(0, AudioOf(codec, earlier, 0))];
    var received := Stream(codec, cut, MAX_FRAMES)[1..] + [StatusPacket(FINISHED, Code(LIMIT), MAX_FRAMES)];
    PacketsArrive(max, idle, [], left + received, chunks);
    MixedCapture(codec, earlier, cut);
  }
}
