/** The module's receive path: an interrupt fills a ring, the worker parses frames out of it and has audio played.
    The interrupt may run before every look the worker takes at the ring. */
module RxRing {
  import opened Wire
  import opened Optional
  import opened Playback
  import Firmware

  const RX_RING_SIZE := 16384

  /** One FIFO entry of the UART: a byte, or a byte with an error flag. */
  datatype Entry = Clean(b: Byte) | Flagged

  /** The bytes an interrupt would store if the ring had room for all of them. */
  function CleanBytes(es: seq<Entry>): seq<Byte> {
    if es == [] then []
    else CleanBytes(es[..|es| - 1]) + if es[|es| - 1].Clean? then [es[|es| - 1].b] else []
  }

  lemma {:induction false} CleanBound(es: seq<Entry>)
    ensures |CleanBytes(es)| <= |es|
  {
    if es != [] {
      CleanBound(es[..|es| - 1]);
    }
  }

  /** With `more` bytes to come: reading the whole is reading what is left, after `log`. */
  ghost predicate ReadsOn(accepted: seq<Byte>, consumed: nat, log: Firmware.Reading, more: seq<Byte>)
    requires consumed <= |accepted|
  {
    && Firmware.Scan(accepted + more) == Firmware.Then(log, Firmware.Scan(accepted[consumed..] + more))
    && Firmware.Unread(accepted + more) == Firmware.Unread(accepted[consumed..] + more)
  }

  /** Having read `log` off the first `consumed` bytes changes nothing about the reading of the stream, now or later. */
  ghost predicate ReadSoFar(accepted: seq<Byte>, consumed: nat, log: Firmware.Reading)
    requires consumed <= |accepted|
  {
    forall more :: ReadsOn(accepted, consumed, log, more)
  }

  lemma ReadArrives(accepted: seq<Byte>, consumed: nat, log: Firmware.Reading, arrived: seq<Byte>)
    requires consumed <= |accepted| && ReadSoFar(accepted, consumed, log)
    ensures ReadSoFar(accepted + arrived, consumed, log)
  {
    hide Firmware.Scan, Firmware.Unread;
    forall more
      ensures ReadsOn(accepted + arrived, consumed, log, more)
    {
      assert ReadsOn(accepted, consumed, log, arrived + more);
      assert accepted + arrived + more == accepted + (arrived + more);
      assert (accepted + arrived)[consumed..] + more == accepted[consumed..] + (arrived + more);
    }
  }

  lemma ReadOn(was: seq<Byte>, consumed: nat, log: Firmware.Reading, accepted: seq<Byte>)
    requires was <= accepted && consumed <= |was| && ReadSoFar(was, consumed, log)
    ensures ReadSoFar(accepted, consumed, log)
  {
    hide ReadSoFar;
    ReadArrives(was, consumed, log, accepted[|was|..]);
    assert was + accepted[|was|..] == accepted;
  }

  lemma StepOn(accepted: seq<Byte>, consumed: nat, log: Firmware.Reading, more: seq<Byte>)
    requires consumed <= |accepted| && ReadsOn(accepted, consumed, log, more)
    requires Firmware.Next(accepted[consumed..]) != Firmware.Wait
    ensures var step := Firmware.Next(accepted[consumed..]);
            && consumed + Firmware.Eaten(step) <= |accepted|
            && ReadsOn(accepted, consumed + Firmware.Eaten(step), Firmware.Then(log, Firmware.Single(step)), more)
  {
    hide Firmware.Next, Firmware.Eaten, Firmware.Single, Firmware.Then;
    var b := accepted[consumed..];
    var step := Firmware.Next(b);
    Firmware.EatenFits(b);
    var n := Firmware.Eaten(step);
    Firmware.NextStable(b, more);
    assert (b + more)[n..] == accepted[consumed + n..] + more;
    ThenAssociates(log, Firmware.Single(step), Firmware.Scan(accepted[consumed + n..] + more));
  }

  /** Acting on a decision about the front of the unread bytes extends the log by that decision. */
  lemma ReadStep(accepted: seq<Byte>, consumed: nat, log: Firmware.Reading)
    requires consumed <= |accepted| && ReadSoFar(accepted, consumed, log)
    requires Firmware.Next(accepted[consumed..]) != Firmware.Wait
    ensures var step := Firmware.Next(accepted[consumed..]);
            && consumed + Firmware.Eaten(step) <= |accepted|
            && ReadSoFar(accepted, consumed + Firmware.Eaten(step), Firmware.Then(log, Firmware.Single(step)))
  {
    hide Firmware.Next, Firmware.Eaten, Firmware.Single, Firmware.Then, ReadsOn;
    var step := Firmware.Next(accepted[consumed..]);
    Firmware.EatenFits(accepted[consumed..]);
    var to, grown := consumed + Firmware.Eaten(step), Firmware.Then(log, Firmware.Single(step));
    forall more
      ensures ReadsOn(accepted, to, grown, more)
    {
      StepOn(accepted, consumed, log, more);
    }
  }

  lemma ThenAssociates(a: Firmware.Reading, b: Firmware.Reading, c: Firmware.Reading)
    ensures Firmware.Then(a, Firmware.Then(b, c)) == Firmware.Then(Firmware.Then(a, b), c)
  {
  }

  /** `n` bytes of a full ring image, from `tail` on, around the end. */
  ghost function Slice(r: seq<Byte>, tail: nat, n: nat): (s: seq<Byte>)
    requires |r| == RX_RING_SIZE
    ensures |s| == n
  {
    seq(n, i requires 0 <= i < n => r[(tail + i) % RX_RING_SIZE])
  }

  lemma SlicePush(r: seq<Byte>, tail: nat, n: nat, b: Byte)
    requires |r| == RX_RING_SIZE && tail < RX_RING_SIZE && n + 1 < RX_RING_SIZE
    ensures var head := (tail + n) % RX_RING_SIZE;
            Slice(r[head := b], tail, n + 1) == Slice(r, tail, n) + [b]
  {
  }

  lemma SlicePop(r: seq<Byte>, tail: nat, n: nat, k: nat)
    requires |r| == RX_RING_SIZE && tail < RX_RING_SIZE && k <= n < RX_RING_SIZE
    ensures Slice(r, (tail + k) % RX_RING_SIZE, n - k) == Slice(r, tail, n)[k..]
  {
  }

  lemma IndexDrops(head: nat, tail: nat, n: nat)
    requires head < RX_RING_SIZE && tail < RX_RING_SIZE && n <= (head + RX_RING_SIZE - tail) % RX_RING_SIZE
    ensures (head + RX_RING_SIZE - (tail + n) % RX_RING_SIZE) % RX_RING_SIZE == (head + RX_RING_SIZE - tail) % RX_RING_SIZE - n
  {
  }

  lemma NextIndex(tail: nat, i: nat)
    ensures ((tail + i) % RX_RING_SIZE + 1) % RX_RING_SIZE == (tail + i + 1) % RX_RING_SIZE
  {
  }

  lemma IndexGrows(head: nat, tail: nat)
    requires head < RX_RING_SIZE && tail < RX_RING_SIZE && (head + 1) % RX_RING_SIZE != tail
    ensures ((head + 1) % RX_RING_SIZE + RX_RING_SIZE - tail) % RX_RING_SIZE == (head + RX_RING_SIZE - tail) % RX_RING_SIZE + 1
    ensures (tail + (head + RX_RING_SIZE - tail) % RX_RING_SIZE) % RX_RING_SIZE == head
  {
  }

  lemma ReadNothing()
    ensures ReadSoFar([], 0, Firmware.Reading([], 0, 0))
  {
    hide Firmware.Scan, Firmware.Unread;
    forall more
      ensures ReadsOn([], 0, Firmware.Reading([], 0, 0), more)
    {
      var nothing: seq<Byte> := [];
      assert nothing + more == more && nothing[0..] + more == more;
    }
  }

  class RxLink {
    var line: seq<Entry>             // what has yet to arrive on the wire
    const ring: array<Byte>
    var head: nat
    var tail: nat
    var dropped: nat
    var badPackets: nat
    var playState: int
    var cur: Option<seq<Byte>>
    var bytesIn: nat
    var bufsIn: nat
    var underrun: nat
    var busy: nat                    // buffers queued in the codec
    var clock: int
    var paOn: int
    var lastData: int
    var prompting: bool              // a flash prompt owns the output

    ghost var accepted: seq<Byte>    // every byte the interrupt has stored since boot
    ghost var consumed: nat          // how many of them the worker has moved past
    ghost var log: Firmware.Reading  // what it read in them
    ghost var written: seq<Byte>     // full buffers handed to the codec since playback began
    ghost var played: nat            // bytes of them in buffers the codec is done with
    ghost var audio: seq<Byte>       // what arrived since playback began
    ghost var total: seq<Byte>       // what arrived since boot
    ghost var reports: seq<Report>   // the playbacks that ended
    ghost var refused: nat           // how often the codec had no free buffer

    function Available(): nat
      reads this`head, this`tail
      requires head < RX_RING_SIZE && tail < RX_RING_SIZE
    {
      (head + RX_RING_SIZE - tail) % RX_RING_SIZE
    }

    /** The queue the indices stand for. */
    ghost function Contents(): seq<Byte>
      reads this`head, this`tail, ring
      requires ring.Length == RX_RING_SIZE && head < RX_RING_SIZE && tail < RX_RING_SIZE
    {
      Slice(ring[..], tail, Available())
    }

    ghost function Stream(): seq<Byte>
      reads this`written, this`cur
    {
      written + cur.GetOr([])
    }

    ghost predicate Queue()
      reads this`head, this`tail, this`consumed, this`accepted, ring
    {
      && ring.Length == RX_RING_SIZE && head < RX_RING_SIZE && tail < RX_RING_SIZE
      && consumed <= |accepted| && Contents() == accepted[consumed..]
    }

    ghost function Abs(): Player
      reads this`playState, this`cur, this`written, this`played, this`bytesIn, this`underrun, this`paOn, this`lastData
      reads this`audio, this`total, this`reports
    {
      Player(playState, Stream(), played, bytesIn, underrun, paOn, lastData, audio, total, reports)
    }

    /** Buffers are handed on when they are full, and the codec has those it is not done with. */
    ghost predicate Buffered()
      reads this`cur, this`written, this`played, this`busy
    {
      && (cur.Some? ==> 0 < |cur.value| < PLAY_BUF_BYTES)
      && played % PLAY_BUF_BYTES == 0 && |written| == played + busy * PLAY_BUF_BYTES
    }

    ghost predicate Heard()
      reads this`playState, this`cur, this`written, this`played, this`busy, this`bytesIn, this`underrun, this`paOn, this`lastData
      reads this`audio, this`total, this`reports, this`log
    {
      Buffered() && Sound(Abs()) && total == Firmware.Audio(log.frames)
    }

    ghost predicate Valid()
      reads this`head, this`tail, this`consumed, this`accepted, ring, this`badPackets
      reads this`playState, this`cur, this`written, this`played, this`busy, this`bytesIn, this`underrun, this`paOn, this`lastData
      reads this`audio, this`total, this`reports, this`log
    {
      Queue() && consumed <= |accepted| && ReadSoFar(accepted, consumed, log) && badPackets == log.bad && Heard()
    }

    constructor (line: seq<Entry>)
      ensures this.line == line
      ensures Valid() && fresh(ring) && accepted == [] && log == Firmware.Reading([], 0, 0) && Abs() == SILENT
    {
      this.line := line;
      ring := new Byte[RX_RING_SIZE](_ => 0);
      hide *;
      head, tail, dropped, badPackets, playState, cur, bytesIn, bufsIn, underrun := 0, 0, 0, 0, 0, None, 0, 0, 0;
      busy, clock, paOn, lastData, prompting, refused := 0, 0, 0, 0, false, 0;
      accepted, consumed, log := [], 0, Firmware.Reading([], 0, 0);
      written, played, audio, total, reports := [], 0, [], [], [];
      new;
      StartsValid();
    }

    lemma StartsValid()
      requires ring.Length == RX_RING_SIZE && head == tail == consumed == badPackets == 0 && cur.None? && busy == 0
      requires accepted == [] && log == Firmware.Reading([], 0, 0) && written == [] && played == 0
      requires playState == 0 && bytesIn == underrun == 0 && paOn == lastData == 0 && audio == total == [] && reports == []
      ensures Valid() && Abs() == SILENT
    {
      hide ReadSoFar, Slice;
      ReadNothing();
      NoAudio();
    }

    /** Store one byte, or count it as dropped when the ring is full. */
    method Push(b: Byte)
      requires Queue()
      modifies this`head, this`dropped, this`accepted, ring
      ensures Queue()
      ensures |old(Contents())| < RX_RING_SIZE - 1 ==> accepted == old(accepted) + [b] && dropped == old(dropped)
      ensures |old(Contents())| == RX_RING_SIZE - 1 ==>
                accepted == old(accepted) && dropped == old(dropped) + 1 && Contents() == old(Contents())
      ensures |old(Contents())| <= RX_RING_SIZE - 1
    {
      var next := (head + 1) % RX_RING_SIZE;
      if next != tail {
        ghost var n := Available();
        SlicePush(ring[..], tail, n, b);
        IndexGrows(head, tail);
        ring[head] := b;
        head := next;
        accepted := accepted + [b];
      } else {
        dropped := dropped + 1;
      }
    }

    /** `UART0_IRQHandler`: drain at most 64 FIFO entries into the ring. */
    method Interrupt(fifo: seq<Entry>)
      requires Queue() && |fifo| <= 64
      modifies this`head, this`dropped, this`accepted, ring
      ensures Queue()
      ensures exists n :: 0 <= n <= |CleanBytes(fifo)| && accepted == old(accepted) + CleanBytes(fifo)[..n]
                          && dropped == old(dropped) + |CleanBytes(fifo)| - n
                          && (n < |CleanBytes(fifo)| ==> |Contents()| == RX_RING_SIZE - 1)
    {
      hide Slice, Available, Contents;
      ghost var n := 0;
      for i := 0 to |fifo|
        invariant Queue()
        invariant 0 <= n <= |CleanBytes(fifo[..i])|
        invariant accepted == old(accepted) + CleanBytes(fifo[..i])[..n]
        invariant dropped == old(dropped) + |CleanBytes(fifo[..i])| - n
        invariant n < |CleanBytes(fifo[..i])| ==> |Contents()| == RX_RING_SIZE - 1
      {
        assert fifo[..i + 1][..i] == fifo[..i];
        if fifo[i].Flagged? {
          continue;
        }
        ghost var room := |Contents()| < RX_RING_SIZE - 1;
        Push(fifo[i].b);
        if room {
          n := n + 1;
        }
      }
      assert fifo[..|fifo|] == fifo;
    }

    /** What left the line is clean bytes that were stored or counted. */
    ghost predicate Arrived(before: seq<Entry>, bytes: int)
      reads this`line
    {
      |line| <= |before| && bytes == |CleanBytes(before[..|before| - |line|])|
    }

    /** Any burst of arrivals that the interrupt handles at once, at a point of the worker's code. */
    method Arrivals()
      requires Queue()
      modifies this`head, this`dropped, this`accepted, ring, this`line
      ensures Queue() && old(accepted) <= accepted && old(Contents()) <= Contents()
      ensures |line| + |accepted| <= |old(line)| + |old(accepted)|
      ensures Arrived(old(line), |accepted| - |old(accepted)| + dropped - old(dropped))
    {
      var n: int := *;
      if 0 <= n <= 64 && n <= |line| {
        CleanBound(line[..n]);
        Interrupt(line[..n]);
        line := line[n..];
      }
    }

    /** Move the tail past `n` bytes. */
    method Skip(n: nat)
      requires Queue() && n <= |Contents()|
      modifies this`tail, this`consumed
      ensures Queue() && consumed == old(consumed) + n && Contents() == old(Contents())[n..]
    {
      SlicePop(ring[..], tail, Available(), n);
      IndexDrops(head, tail, n);
      hide Slice;
      tail := (tail + n) % RX_RING_SIZE;
      consumed := consumed + n;
      assert accepted[old(consumed)..][n..] == accepted[consumed..];
    }

    /** The `i`-th byte of the queue. */
    function At(i: nat): (b: Byte)
      reads this`head, this`tail, this`consumed, this`accepted, ring
      requires Queue() && i < |Contents()|
      ensures b == Contents()[i]
    {
      ring[(tail + i) % RX_RING_SIZE]
    }

    /** Copy `n` bytes from the ring to the current play buffer and move past them. */
    method TakeBytes(n: nat) returns (bytes: seq<Byte>)
      requires Queue() && n <= |Contents()|
      modifies this`head, this`tail, this`dropped, this`accepted, this`line, this`consumed, ring
      ensures Queue() && old(accepted) <= accepted
      ensures consumed == old(consumed) + n && old(Contents())[n..] <= Contents()
      ensures bytes == old(Contents())[..n]
      ensures |line| + |accepted| <= |old(line)| + |old(accepted)|
    {
      hide Slice, Available, Contents;
      ghost var seen := Contents();
      bytes := [];
      var at := tail;
      for i := 0 to n
        invariant Queue() && seen <= Contents() && old(accepted) <= accepted
        invariant at == (tail + i) % RX_RING_SIZE
        invariant bytes == seen[..i]
        invariant |line| + |accepted| <= |old(line)| + |old(accepted)|
        modifies this`head, this`dropped, this`accepted, this`line, ring
      {
        Arrivals();
        assert At(i) == seen[i];
        bytes := bytes + [ring[at]];
        NextIndex(tail, i);
        at := (at + 1) % RX_RING_SIZE;
      }
      Skip(n);
    }

    /** Fill the current play buffer with up to `left` bytes and hand it on when it is full. */
    method FillBuffer(left: nat) returns (n: nat)
      requires Queue() && 0 < left <= |Contents()| && cur.Some? && |cur.value| < PLAY_BUF_BYTES
      requires played % PLAY_BUF_BYTES == 0 && |written| == played + busy * PLAY_BUF_BYTES
      modifies this`head, this`tail, this`dropped, this`accepted, this`line, this`consumed, ring
      modifies this`cur, this`written, this`busy, this`bufsIn
      ensures Queue() && old(accepted) <= accepted && 0 < n <= left && Buffered()
      ensures consumed == old(consumed) + n && old(Contents())[n..] <= Contents()
      ensures Stream() == old(Stream()) + old(Contents())[..n]
      ensures |line| + |accepted| <= |old(line)| + |old(accepted)|
    {
      hide Slice, Available, Contents;
      n := PLAY_BUF_BYTES - |cur.value|;
      if n > left {
        n := left;
      }
      var bytes := TakeBytes(n);
      ghost var filled := cur.value + bytes;
      cur := Some(cur.value + bytes);
      assert written + filled == old(Stream()) + bytes;
      if |cur.value| == PLAY_BUF_BYTES {
        written := written + cur.value;
        busy, bufsIn := busy + 1, bufsIn + 1;
        cur := None;
        assert written + [] == written;
      }
    }

    /** `cm_get_pcm_buffer`: whether one is free is up to the codec. */
    method GetBuffer() returns (free: bool)
      modifies this`refused
      ensures refused == old(refused) + if free then 0 else 1
    {
      free := *;
      if !free {
        refused := refused + 1;
      }
    }

    /** One round of playback: get a buffer if there is none, then fill it. */
    method PlayRound(left: nat) returns (starved: bool, n: nat)
      requires Queue() && 0 < left <= |Contents()| && Buffered()
      modifies this`head, this`tail, this`dropped, this`accepted, this`line, this`consumed, ring
      modifies this`cur, this`written, this`busy, this`bufsIn, this`refused
      ensures Queue() && old(accepted) <= accepted && Buffered()
      ensures refused == old(refused) + if starved then 1 else 0
      ensures n <= left && (starved <==> n == 0) && consumed == old(consumed) + n
      ensures old(Contents())[n..] <= Contents()
      ensures Stream() == old(Stream()) + old(Contents())[..n]
      ensures |line| + |accepted| <= |old(line)| + |old(accepted)|
    {
      hide Slice;
      ghost var before, stream := Contents(), Stream();
      Arrivals();
      if cur.None? {
        var free := GetBuffer();
        if !free {
          assert stream + before[..0] == stream;
          return true, 0;
        }
        cur := Some([]);
      }
      ghost var now := Contents();
      n := FillBuffer(left);
      assert now[..n] == before[..n];
      starved := false;
    }

    /** `play_consume`: move `len` payload bytes into playback buffers. Whatever happens the tail advances by exactly
        `len`; when the codec has no free buffer the rest of this payload is dropped and counted. */
    method PlayConsume(len: nat) returns (ghost taken: nat)
      requires Queue() && len <= |Contents()| && Buffered()
      modifies this`head, this`tail, this`dropped, this`accepted, this`line, this`consumed, ring
      modifies this`cur, this`written, this`busy, this`bytesIn, this`bufsIn, this`underrun, this`refused, this`lastData, this`clock
      ensures Queue() && old(accepted) <= accepted && Buffered()
      ensures consumed == old(consumed) + len && bytesIn == old(bytesIn) + len
      ensures taken <= len && Stream() == old(Stream()) + old(Contents())[..taken]
      ensures underrun == old(underrun) + if taken < len then 1 else 0
      ensures refused == old(refused) + if taken < len then 1 else 0
      ensures |line| + |accepted| <= |old(line)| + |old(accepted)|
      ensures clock == lastData >= old(clock)
    {
      hide Slice, Available;
      ghost var payload, stream := Contents(), Stream();
      Passes();
      lastData, bytesIn := clock, bytesIn + len;
      var left := len;
      taken := 0;
      assert stream + payload[..0] == stream;
      while left > 0
        invariant 0 <= left <= len && taken == len - left
        invariant Playing(payload, stream, taken) && old(accepted) <= accepted
        invariant |line| + |accepted| <= |old(line)| + |old(accepted)|
        invariant consumed == old(consumed) + taken
        invariant clock == lastData >= old(clock)
        invariant underrun == old(underrun) && refused == old(refused) && bytesIn == old(bytesIn) + len
      {
        var starved, n := PlayOn(left, payload, stream, taken);
        if starved {
          GiveUp(left);
          return;
        }
        left := left - n;
        taken := taken + n;
      }
    }

    /** The rest of a payload for which there was no buffer. */
    method GiveUp(left: nat)
      requires Queue() && left <= |Contents()|
      modifies this`tail, this`consumed, this`underrun
      ensures Queue() && consumed == old(consumed) + left && underrun == old(underrun) + 1 && Stream() == old(Stream())
    {
      hide Slice;
      Skip(left);
      underrun := underrun + 1;
    }

    /** So much of the payload has gone to the stream, and the rest is at the front of the queue. */
    ghost predicate Playing(payload: seq<Byte>, stream: seq<Byte>, taken: nat)
      reads this, ring
    {
      && Queue() && Buffered() && taken <= |payload|
      && payload[taken..] <= Contents() && Stream() == stream + payload[..taken]
    }

    method PlayOn(left: nat, ghost payload: seq<Byte>, ghost stream: seq<Byte>, ghost taken: nat) returns (starved: bool, n: nat)
      requires Playing(payload, stream, taken) && 0 < left <= |payload| - taken
      modifies this`head, this`tail, this`dropped, this`accepted, this`line, this`consumed, ring
      modifies this`cur, this`written, this`busy, this`bufsIn, this`refused
      ensures n <= left && Playing(payload, stream, taken + n) && old(accepted) <= accepted
      ensures refused == old(refused) + if starved then 1 else 0
      ensures (starved <==> n == 0) && consumed == old(consumed) + n
      ensures |line| + |accepted| <= |old(line)| + |old(accepted)|
    {
      hide Slice;
      ghost var before := Contents();
      starved, n := PlayRound(left);
      assert before[..n] == payload[taken..][..n];
      assert stream + payload[..taken] + before[..n] == stream + payload[..taken + n];
      assert payload[taken..][n..] == payload[taken + n..];
    }

    /** Time goes by. */
    method Passes()
      modifies this`clock
      ensures clock >= old(clock)
    {
      var span: int := *;
      if span > 0 {
        clock := clock + span;
      }
    }

    method PlayBegin()
      modifies this`playState, this`bytesIn, this`bufsIn, this`underrun, this`paOn, this`clock
      ensures playState == 1 && paOn == clock >= old(clock) && Abs() == Begun(old(Abs()), paOn)
    {
      Passes();
      playState, paOn := 1, clock;
      bytesIn, bufsIn, underrun := 0, 0, 0;
    }

    /** Arrivals between two looks at the ring leave everything read so far as it is. */
    method Arrive()
      requires Valid()
      modifies this`head, this`dropped, this`accepted, this`line, ring
      ensures Valid() && old(accepted) <= accepted && old(Contents()) <= Contents()
      ensures |line| + |accepted| <= |old(line)| + |old(accepted)|
    {
      hide Slice, ReadSoFar, Sound;
      ghost var was := accepted;
      Arrivals();
      ReadOn(was, consumed, log, accepted);
    }

    /** The header of the frame at the front. */
    method PeekHeader() returns (hdr: seq<Byte>)
      requires Valid() && |Contents()| >= HEADER_SIZE
      modifies this`head, this`dropped, this`accepted, this`line, ring
      ensures Valid() && old(accepted) <= accepted && old(Contents()) <= Contents() && hdr == old(Contents())[..HEADER_SIZE]
      ensures |line| + |accepted| <= |old(line)| + |old(accepted)|
    {
      hide Slice, Available, Contents, ReadSoFar, Heard;
      ghost var seen := Contents();
      hdr := [];
      for i := 0 to HEADER_SIZE
        invariant Valid() && old(accepted) <= accepted && seen <= Contents() && hdr == seen[..i]
        invariant |line| + |accepted| <= |old(line)| + |old(accepted)|
      {
        Arrive();
        hdr := hdr + [At(i)];
      }
    }

    /** Payload checksum, summed straight from the ring. */
    method PayloadSum(len: nat) returns (sum: nat)
      requires Valid() && |Contents()| >= HEADER_SIZE + len
      modifies this`head, this`dropped, this`accepted, this`line, ring
      ensures Valid() && old(accepted) <= accepted && old(Contents()) <= Contents()
      ensures sum == Sum(old(Contents())[HEADER_SIZE..HEADER_SIZE + len])
      ensures |line| + |accepted| <= |old(line)| + |old(accepted)|
    {
      hide Slice, Available, Contents, ReadSoFar, Heard;
      ghost var seen := Contents();
      ghost var payload := seen[HEADER_SIZE..HEADER_SIZE + len];
      sum := 0;
      assert payload[..0] == [];
      for i := 0 to len
        invariant Valid() && old(accepted) <= accepted && seen <= Contents() && sum == Sum(payload[..i])
        invariant |line| + |accepted| <= |old(line)| + |old(accepted)|
      {
        Arrive();
        SumSnoc(payload[..i], payload[i]);
        assert payload[..i] + [payload[i]] == payload[..i + 1];
        sum := sum + At(HEADER_SIZE + i);
      }
      assert payload[..len] == payload;
    }

    /** The byte at the front opens no frame: move on by one. */
    method SlipByte()
      requires Valid() && Firmware.Next(Contents()) == Firmware.Slip
      modifies this`tail, this`consumed, this`log
      ensures Valid() && consumed == old(consumed) + 1 && log == Firmware.Then(old(log), Firmware.Reading([], 1, 0))
    {
      hide Slice, Contents, Available, ReadSoFar, Sound, Buffered, Stream, Firmware.Audio;
      ReadStep(accepted, consumed, log);
      Firmware.EatenFits(Contents());
      hide Firmware.Next;
      Skip(1);
      log := Firmware.Then(log, Firmware.Reading([], 1, 0));
      assert log.frames == old(log.frames);
    }

    /** A frame whose checksum is wrong is skipped whole. */
    method SkipBad(len: nat)
      requires Valid() && Firmware.Next(Contents()) == Firmware.Bad(len)
      modifies this`tail, this`consumed, this`log, this`badPackets
      ensures Valid() && consumed == old(consumed) + HEADER_SIZE + len
      ensures log == Firmware.Then(old(log), Firmware.Reading([], 0, 1))
    {
      hide Slice, Contents, Available, ReadSoFar, Sound, Buffered, Stream, Firmware.Audio;
      ReadStep(accepted, consumed, log);
      Firmware.EatenFits(Contents());
      hide Firmware.Next;
      Skip(HEADER_SIZE + len);
      badPackets := badPackets + 1;
      log := Firmware.Then(log, Firmware.Reading([], 0, 1));
      assert log.frames == old(log.frames);
    }

    /** The payload of a good frame, header already passed: audio is played if playback runs or may begin (a flash
        prompt may own the output), anything else is moved past. */
    method PlayOrSkip(kind: Byte, len: nat, ghost frame: Firmware.Frame) returns (ghost fed: Fed)
      requires Queue() && len <= |Contents()| && Buffered()
      requires frame == Firmware.Frame(kind, Contents()[..len])
      modifies this`head, this`tail, this`dropped, this`accepted, this`line, this`consumed, ring
      modifies this`cur, this`written, this`busy, this`bytesIn, this`bufsIn, this`underrun, this`refused, this`lastData, this`clock
      modifies this`playState, this`paOn, this`audio, this`total
      ensures Queue() && old(accepted) <= accepted && Buffered() && consumed == old(consumed) + len
      ensures fed.frame == frame && Fits(fed) && Abs() == FedOne(old(Abs()), fed)
      ensures fed.prompting == prompting && refused == old(refused) + CutShort(old(Abs()), fed)
      ensures old(clock) <= fed.begunAt <= fed.at <= clock
      ensures total == old(total) + AudioOf(frame)
      ensures |line| + |accepted| <= |old(line)| + |old(accepted)|
      ensures clock >= old(clock)
    {
      hide Slice, Contents, Available, FedOne;
      ghost var p := Abs();
      if kind == Firmware.PLAY_DATA && len > 0 && (playState != 0 || !prompting) {
        fed := PlayPayload(len, frame);
        return;
      }
      total := total + AudioOf(frame);
      fed := Fed(frame, clock, clock, 0, prompting);
      FedNothing(p, fed);
      Skip(len);
    }

    method PlayPayload(len: nat, ghost frame: Firmware.Frame) returns (ghost fed: Fed)
      requires Queue() && 0 < len <= |Contents()| && Buffered() && (playState != 0 || !prompting)
      requires frame == Firmware.Frame(Firmware.PLAY_DATA, Contents()[..len])
      modifies this`head, this`tail, this`dropped, this`accepted, this`line, this`consumed, ring
      modifies this`cur, this`written, this`busy, this`bytesIn, this`bufsIn, this`underrun, this`refused, this`lastData, this`clock
      modifies this`playState, this`paOn, this`audio, this`total
      ensures Queue() && old(accepted) <= accepted && Buffered() && consumed == old(consumed) + len
      ensures fed.frame == frame && Fits(fed) && Abs() == FedOne(old(Abs()), fed)
      ensures fed.prompting == prompting && refused == old(refused) + CutShort(old(Abs()), fed)
      ensures old(clock) <= fed.begunAt <= fed.at <= clock
      ensures total == old(total) + AudioOf(frame)
      ensures |line| + |accepted| <= |old(line)| + |old(accepted)|
      ensures clock >= old(clock)
    {
      hide Slice, Contents, Available, FedOne, Queue, Buffered, Begun, Consumed;
      ghost var p := Abs();
      if playState == 0 {
        PlayBegin();
      }
      ghost var begunAt := clock;
      ghost var taken := ConsumeWhole(len);
      fed := Fed(frame, begunAt, lastData, taken, prompting);
      FedSome(p, fed);
      total := total + AudioOf(frame);
    }

    /** A payload for playback that runs. */
    method ConsumeWhole(len: nat) returns (ghost taken: nat)
      requires Queue() && len <= |Contents()| && Buffered()
      modifies this`head, this`tail, this`dropped, this`accepted, this`line, this`consumed, ring
      modifies this`cur, this`written, this`busy, this`bytesIn, this`bufsIn, this`underrun, this`refused, this`lastData, this`clock, this`audio
      ensures Queue() && old(accepted) <= accepted && Buffered() && consumed == old(consumed) + len
      ensures taken <= len && Abs() == Consumed(old(Abs()), old(Contents())[..len], lastData, taken)
      ensures refused == old(refused) + if taken < len then 1 else 0
      ensures |line| + |accepted| <= |old(line)| + |old(accepted)|
      ensures clock == lastData >= old(clock)
    {
      hide Slice, Contents, Available, Buffered;
      ghost var payload := Contents()[..len];
      taken := PlayConsume(len);
      audio := audio + payload;
      assert payload[..taken] == old(Contents())[..taken];
    }

    /** Move past the header, then past the payload. */
    method PlayFrame(kind: Byte, len: nat, ghost frame: Firmware.Frame) returns (ghost fed: Fed)
      requires Queue() && HEADER_SIZE + len <= |Contents()| && Buffered()
      requires frame == Firmware.Frame(kind, Contents()[HEADER_SIZE..HEADER_SIZE + len])
      modifies this`head, this`tail, this`dropped, this`accepted, this`line, this`consumed, ring
      modifies this`cur, this`written, this`busy, this`bytesIn, this`bufsIn, this`underrun, this`refused, this`lastData, this`clock
      modifies this`playState, this`paOn, this`audio, this`total
      ensures Queue() && old(accepted) <= accepted && Buffered() && consumed == old(consumed) + HEADER_SIZE + len
      ensures fed.frame == frame && Fits(fed) && Abs() == FedOne(old(Abs()), fed)
      ensures fed.prompting == prompting && refused == old(refused) + CutShort(old(Abs()), fed)
      ensures old(clock) <= fed.begunAt <= fed.at <= clock
      ensures total == old(total) + AudioOf(frame)
      ensures |line| + |accepted| <= |old(line)| + |old(accepted)|
      ensures clock >= old(clock)
    {
      hide Slice, Contents, Available, FedOne;
      ghost var payload := Contents()[HEADER_SIZE..HEADER_SIZE + len];
      Skip(HEADER_SIZE);
      Arrivals();
      assert Contents()[..len] == payload;
      fed := PlayOrSkip(kind, len, frame);
    }

    /** A good frame at the front: it is logged, its audio put into buffers or its event raised, and the tail ends up past the
        whole frame in every case. */
    method Dispatch(kind: Byte, len: nat, ghost frame: Firmware.Frame) returns (events: set<Event>, ghost fed: Fed)
      requires Valid() && Firmware.Next(Contents()) == Firmware.Take(frame) && frame.kind == kind && |frame.payload| == len
      requires HEADER_SIZE + len <= |Contents()| && frame.payload == Contents()[HEADER_SIZE..HEADER_SIZE + len]
      modifies this`head, this`tail, this`dropped, this`accepted, this`line, this`consumed, ring
      modifies this`cur, this`written, this`busy, this`bytesIn, this`bufsIn, this`underrun, this`refused, this`lastData, this`clock
      modifies this`playState, this`paOn, this`audio, this`total, this`log
      ensures Valid() && old(accepted) <= accepted && consumed == old(consumed) + HEADER_SIZE + len
      ensures log == Firmware.Then(old(log), Firmware.Reading([frame], 0, 0)) && events == EventsOf(frame)
      ensures fed.frame == frame && Fits(fed) && Abs() == FedOne(old(Abs()), fed)
      ensures fed.prompting == prompting && refused == old(refused) + CutShort(old(Abs()), fed)
      ensures old(clock) <= fed.begunAt <= fed.at <= clock
      ensures |line| + |accepted| <= |old(line)| + |old(accepted)|
      ensures clock >= old(clock)
    {
      hide Slice, Contents, Available, ReadSoFar, Sound, FedOne, Buffered, Stream, EventsOf, Firmware.Audio;
      ReadStep(accepted, consumed, log);
      hide Firmware.Next, Queue;
      ghost var was, p := accepted, Abs();
      fed := PlayFrame(kind, len, frame);
      hide Abs;
      FedKeeps(p, fed);
      LogFrame(frame, was);
      events := KindEvents(kind, len);
    }

    /** Book-keeping of the specification for a frame that has just been moved past. */
    ghost method LogFrame(frame: Firmware.Frame, was: seq<Byte>)
      requires Queue() && was <= accepted && consumed <= |was| && badPackets == log.bad
      requires ReadSoFar(was, consumed, Firmware.Then(log, Firmware.Reading([frame], 0, 0)))
      requires Buffered() && Sound(Abs()) && total == Firmware.Audio(log.frames) + AudioOf(frame)
      modifies this`log
      ensures Valid() && log == Firmware.Then(old(log), Firmware.Reading([frame], 0, 0))
    {
      hide Slice, Contents, Available, Firmware.Then, ReadSoFar, Sound, Buffered;
      AudioSnoc(log.frames, frame);
      ghost var grown := Firmware.Then(log, Firmware.Reading([frame], 0, 0));
      OneMore(log, frame);
      log := grown;
      ReadOn(was, consumed, log, accepted);
    }

    /** Look at the front of the ring, with interrupts in between, and decide. */
    method Classify() returns (v: Verdict)
      requires Valid()
      modifies this`head, this`dropped, this`accepted, this`line, ring
      ensures Valid() && old(accepted) <= accepted
      ensures Judges(v, Contents())
      ensures |line| + |accepted| <= |old(line)| + |old(accepted)|
    {
      hide Slice, Contents, ReadSoFar, Heard, Firmware.Next, Firmware.GoodHeader, U16, Sum;
      Arrive();
      ContentsLength();
      if Available() < HEADER_SIZE {
        Undecided(Contents());
        return NotYet;
      }
      var hdr := PeekHeader();
      Arrive();
      ByHeader(Contents(), hdr);
      if !Firmware.GoodHeader(hdr) {
        return SlipIt;
      }
      var len := U16(hdr, 8);
      if len > Firmware.MAX_PAYLOAD {
        return SlipIt;
      }
      v := ClassifyPayload(hdr, len);
    }

    lemma ContentsLength()
      requires ring.Length == RX_RING_SIZE && head < RX_RING_SIZE && tail < RX_RING_SIZE
      ensures |Contents()| == Available()
    {
    }

    /** The second half: the header is good, the payload is to come or to be checked. */
    method ClassifyPayload(hdr: seq<Byte>, len: nat) returns (v: Verdict)
      requires Valid() && |hdr| == HEADER_SIZE <= |Contents()| && hdr == Contents()[..HEADER_SIZE]
      requires Firmware.GoodHeader(hdr) && len == U16(hdr, 8) <= Firmware.MAX_PAYLOAD
      modifies this`head, this`dropped, this`accepted, this`line, ring
      ensures Valid() && old(accepted) <= accepted && Judges(v, Contents())
      ensures |line| + |accepted| <= |old(line)| + |old(accepted)|
    {
      hide Slice, Contents, ReadSoFar, Heard, Firmware.Next, Firmware.GoodHeader, U16, Sum;
      Arrive();
      ContentsLength();
      if Available() < HEADER_SIZE + len {
        ByHeader(Contents(), hdr);
        return NotYet;
      }
      Arrive();
      ghost var front := Contents()[..HEADER_SIZE + len];
      var sum := PayloadSum(len);
      assert Contents()[..HEADER_SIZE + len] == front;
      ByHeader(Contents(), hdr);
      v := if sum % 65536 != U16(hdr, 4) then BadSum(len) else Good(hdr[6], len);
    }

    /** One round of `drain_rx_ring`; `more` is false when the frame at the front has not fully arrived. */
    method ParseOne() returns (more: bool, events: set<Event>, ghost fed: seq<Fed>)
      requires Valid()
      modifies this`head, this`tail, this`dropped, this`accepted, this`line, this`consumed, ring, this`badPackets
      modifies this`cur, this`written, this`busy, this`bytesIn, this`bufsIn, this`underrun, this`refused, this`lastData, this`clock
      modifies this`playState, this`paOn, this`audio, this`total, this`log
      ensures Valid() && old(accepted) <= accepted
      ensures !more ==> Firmware.Next(Contents()) == Firmware.Wait && consumed == old(consumed)
      ensures more ==> consumed > old(consumed)
      ensures AllFit(fed) && |fed| <= 1 && log.frames == old(log.frames) + Frames(fed)
      ensures events == AllEvents(Frames(fed))
      ensures Abs() == if fed == [] then old(Abs()) else FedOne(old(Abs()), fed[0])
      ensures refused == old(refused) + if fed == [] then 0 else CutShort(old(Abs()), fed[0])
      ensures fed != [] ==> fed[0].prompting == prompting && old(clock) <= fed[0].begunAt <= fed[0].at <= clock
      ensures |line| + |accepted| <= |old(line)| + |old(accepted)|
      ensures clock >= old(clock)
    {
      hide Slice, Contents, Available, Stream, ReadSoFar, Heard, FedOne, EventsOf, Firmware.Next;
      events, fed := {}, [];
      assert Frames([]) == [] && log.frames + [] == log.frames;
      var v := Classify();
      match v
      case NotYet => more := false;
      case SlipIt => SlipByte(); more := true;
      case BadSum(len) => SkipBad(len); more := true;
      case Good(kind, len) =>
        ghost var frame := Firmware.Frame(kind, Contents()[HEADER_SIZE..HEADER_SIZE + len]);
        ghost var one;
        events, one := Dispatch(kind, len, frame);
        fed := [one];
        assert Frames(fed) == [frame] && [frame][..0] == [];
        more := true;
    }

    /** `drain_rx_ring`: parse until the frame at the front is incomplete. */
    method DrainRxRing() returns (events: set<Event>, ghost fed: seq<Fed>)
      requires Valid()
      modifies this`head, this`tail, this`dropped, this`accepted, this`line, this`consumed, ring, this`badPackets
      modifies this`cur, this`written, this`busy, this`bytesIn, this`bufsIn, this`underrun, this`refused, this`lastData, this`clock
      modifies this`playState, this`paOn, this`audio, this`total, this`log
      ensures Valid() && old(accepted) <= accepted
      ensures Firmware.Next(Contents()) == Firmware.Wait
      ensures AllFit(fed) && log.frames == old(log.frames) + Frames(fed) && events == AllEvents(Frames(fed))
      ensures Abs() == FedAll(old(Abs()), fed) && refused == old(refused) + Cuts(old(Abs()), fed)
      ensures forall f :: f in fed ==> f.prompting == prompting && old(clock) <= f.begunAt <= f.at <= clock
      ensures log == Firmware.Scan(accepted) && Contents() == Firmware.Unread(accepted)
      ensures old(playState) != 0 ==>
                && playState == old(playState) && underrun >= old(underrun)
                && (Stream() == old(Stream()) + Firmware.Audio(Frames(fed)) <==> underrun == old(underrun))
      ensures clock >= old(clock)
    {
      hide Slice, Contents, ReadSoFar, Heard, FedOne, FedAll, AllEvents, Cuts, CutShort, Firmware.Next;
      ghost var p := Abs();
      events, fed := {}, [];
      NothingFed(p);
      assert log.frames + [] == log.frames;
      var more := true;
      while more
        invariant Valid() && old(accepted) <= accepted
        invariant AllFit(fed) && log.frames == old(log.frames) + Frames(fed) && events == AllEvents(Frames(fed))
        invariant Abs() == FedAll(p, fed) && refused == old(refused) + Cuts(p, fed)
        invariant clock >= old(clock)
        invariant forall f :: f in fed ==> f.prompting == prompting && old(clock) <= f.begunAt <= f.at <= clock
        invariant !more ==> Firmware.Next(Contents()) == Firmware.Wait
        decreases more, |line| + |accepted| - consumed
      {
        var new_;
        ghost var one;
        more, new_, one := ParseOne();
        FedJoin(p, fed, one);
        events, fed := events + new_, fed + one;
      }
      Quiescent(accepted, consumed, log);
      if p.state != 0 {
        CutShortIff(p, fed);
      }
    }

    // ----- the end of a playback -----

    /** Whatever the codec got done meanwhile. */
    method CodecPlays() returns (ghost n: nat)
      modifies this`busy, this`played
      ensures n <= old(busy) == busy + n && played == old(played) + n * PLAY_BUF_BYTES
    {
      n := 0;
      var done: int := *;
      if 0 <= done <= busy {
        n := done;
        busy := busy - done;
        played := played + done * PLAY_BUF_BYTES;
      }
    }

    /** Between two turns a codec that was started plays on. */
    method Between() returns (ghost n: nat)
      requires Valid()
      modifies this`busy, this`played
      ensures Valid() && Abs() == Ran(old(Abs()), n)
    {
      hide Slice, Contents, Available, ReadSoFar, Sound, Ran;
      ghost var p := Abs();
      n := 0;
      RanIs(p, 0, |written|);
      if playState == 2 {
        n := CodecPlays();
        RanIs(p, n, |written|);
      }
      RanKeeps(p, n);
    }

    /** `play_finish`: pad and hand on the last buffer; wait for a codec that was started, but not for ever; stop it, which
        discards what it has not played; tell the host how many bytes arrived. */
    method PlayFinish() returns (ghost n: nat)
      requires Valid()
      modifies this`head, this`dropped, this`accepted, this`line, ring
      modifies this`cur, this`written, this`busy, this`played, this`bufsIn, this`clock, this`playState, this`audio, this`reports
      ensures Valid() && old(accepted) <= accepted && Abs() == Finished(old(Abs()), n)
      ensures clock >= old(clock) && old(reports) <= reports && WaitedFor(reports[|old(reports)|..], clock - old(clock))
    {
      hide Slice, Contents, Available, Stream, ReadSoFar, Sound, Finished, Padded, Firmware.Audio;
      ghost var p, was := Abs(), accepted;
      FinishedIdle(p);
      n := 0;
      if playState == 0 {
        return;
      }
      var wasPlaying;
      wasPlaying, n := WindUp();
      hide Queue;
      StopCodec(wasPlaying, p, n);
      hide Heard, Ending;
      ReadOn(was, consumed, log, accepted);
    }

    /** The last buffer is handed on, and a codec that was started is waited for. */
    method WindUp() returns (wasPlaying: bool, ghost n: nat)
      requires Queue() && Heard() && playState != 0
      modifies this`head, this`dropped, this`accepted, this`line, ring
      modifies this`cur, this`written, this`busy, this`played, this`bufsIn, this`clock, this`playState
      ensures Queue() && old(accepted) <= accepted && Ending(old(Abs()), n) && wasPlaying == (old(playState) == 2)
      ensures clock >= old(clock) && (wasPlaying && busy != 0 ==> clock >= old(clock) + DRAIN_MS)
    {
      hide Slice, Contents, Available, Sound, Padded, Firmware.Audio;
      FinishedIdle(Abs());
      n := 0;
      HandOver();
      wasPlaying := playState == 2;
      playState := 0;
      if wasPlaying {
        n := Drain();
      }
    }

    /** Between padding the last buffer and stopping the codec of a playback `p`. */
    ghost predicate Ending(p: Player, n: nat)
      reads this
    {
      && Sound(p) && p.state != 0 && playState == 0 && cur.None? && total == Firmware.Audio(log.frames)
      && p.bytesIn == bytesIn && p.underrun == underrun && p.paOn == paOn && p.lastData == lastData
      && p.audio == audio && p.total == total && p.reports == reports
      && |written| == Padded(|p.stream|) == played + busy * PLAY_BUF_BYTES
      && played == p.played + n * PLAY_BUF_BYTES && (p.state != 2 ==> n == 0 && p.played == 0)
    }

    method StopCodec(wasPlaying: bool, ghost p: Player, ghost n: nat)
      requires Ending(p, n) && wasPlaying == (p.state == 2)
      modifies this`written, this`busy, this`played, this`audio, this`reports
      ensures Heard() && Abs() == Finished(p, n) && |reports| == |old(reports)| + 1 && old(reports) <= reports
      ensures reports[|old(reports)|].started == wasPlaying && reports[|old(reports)|].drained == (wasPlaying && old(busy) == 0)
    {
      hide Sound, Padded, Finished;
      FinishedKeeps(p, n);
      FinishedIs(p, n, played, |written|, busy);
      ghost var heard := p.stream[..Least(played, |p.stream|)];
      reports := reports + [Report(bytesIn, underrun, wasPlaying, wasPlaying && busy == 0, audio, heard)];
      written, played, audio, busy := [], 0, [], 0;
      assert Stream() == [];
    }

    /** A buffer that is only begun is padded with silence and handed on. */
    method HandOver()
      requires Buffered()
      modifies this`cur, this`written, this`busy, this`bufsIn
      ensures cur.None? && |written| == played + busy * PLAY_BUF_BYTES && |written| == Padded(|old(Stream())|)
    {
      if cur.Some? {
        written := written + cur.value + seq(PLAY_BUF_BYTES - |cur.value|, _ => 0);
        busy, bufsIn := busy + 1, bufsIn + 1;
        cur := None;
      }
    }

    /** Wait until the codec is done with everything or the deadline is reached. */
    method Drain() returns (ghost n: nat)
      requires Queue()
      modifies this`head, this`dropped, this`accepted, this`line, ring, this`busy, this`played, this`clock
      ensures Queue() && old(accepted) <= accepted
      ensures n <= old(busy) == busy + n && played == old(played) + n * PLAY_BUF_BYTES
      ensures clock >= old(clock) && (busy == 0 || clock >= old(clock) + DRAIN_MS)
    {
      hide Slice, Contents, Available;
      n := 0;
      var deadline := clock + DRAIN_MS;
      while busy > 0 && clock < deadline
        invariant clock >= old(clock)
        invariant Queue() && old(accepted) <= accepted
        invariant n <= old(busy) == busy + n && played == old(played) + n * PLAY_BUF_BYTES
        decreases deadline - clock
      {
        Passes();
        clock := clock + 10;
        Arrivals();
        ghost var done := CodecPlays();
        n := n + done;
      }
    }

    /** `play_abort` */
    method PlayAbort()
      requires Valid()
      modifies this`cur, this`written, this`busy, this`played, this`playState, this`audio
      ensures Valid() && Abs() == Aborted(old(Abs()))
    {
      hide Slice, Contents, Available, ReadSoFar, Sound;
      RestKeeps(Abs(), 0);
      playState, cur, written, busy, played, audio := 0, None, [], 0, 0, [];
      assert Stream() == [];
    }

    /** The warm-up is over, and the codec is started. */
    method WarmUp() returns (ghost now: int)
      requires Valid()
      modifies this`playState, this`clock
      ensures Valid() && Abs() == Warmed(old(Abs()), now) && now == clock >= old(clock)
    {
      hide Slice, Contents, Available, ReadSoFar, Sound;
      Passes();
      now := clock;
      RestKeeps(Abs(), now);
      if playState == 1 && clock - paOn >= WARMUP_MS {
        playState := 2;
      }
    }

    /** The playback part of one turn of the worker's loop. `prompt` and `active` are what the rest of the loop makes of the
        flash prompt and the capture in between: a prompt without a capture cuts the turn short. */
    method TakeTurn(prompt: bool, active: bool) returns (events: set<Event>, ghost t: Turn)
      requires Valid()
      modifies this, ring
      ensures Valid() && old(accepted) <= accepted && prompting == prompt
      ensures AllFit(t.fed) && log.frames == old(log.frames) + Frames(t.fed) && Abs() == Turned(old(Abs()), t)
      ensures events == AllEvents(Frames(t.fed)) && t.cut == (prompt && !active)
      ensures forall f :: f in t.fed ==> f.prompting == old(prompting) && old(clock) <= f.begunAt <= f.at <= clock
      ensures refused == old(refused) + Cuts(Ran(old(Abs()), t.ran), t.fed)
      ensures !t.cut ==> old(clock) <= t.warmAt <= t.goneAt <= clock
      ensures old(reports) <= reports && WaitedFor(reports[|old(reports)|..], clock - old(clock))
    {
      hide Slice, Contents, Available, Valid, FedAll, Cuts, Closed, AllEvents, Ran;
      ghost var ran := Between();
      ghost var fed;
      events, fed := DrainRxRing();
      prompting := prompt;
      t := Turn(ran, fed, prompting && !active, 0, 0, 0, 0);
      if !prompting || active {
        ghost var drain, warmAt, goneAt, goneDrain := CloseTurn(events);
        t := Turn(ran, fed, false, drain, warmAt, goneAt, goneDrain);
      }
    }

    method CloseTurn(events: set<Event>) returns (ghost drain: nat, ghost warmAt: int, ghost goneAt: int, ghost goneDrain: nat)
      requires Valid()
      modifies this`head, this`dropped, this`accepted, this`line, ring
      modifies this`cur, this`written, this`busy, this`played, this`bufsIn, this`clock, this`playState, this`audio, this`reports
      ensures Valid() && old(accepted) <= accepted && old(reports) <= reports
      ensures Abs() == Closed(old(Abs()), events, drain, warmAt, goneAt, goneDrain)
      ensures old(clock) <= warmAt <= goneAt <= clock && WaitedFor(reports[|old(reports)|..], clock - old(clock))
    {
      hide Slice, Contents, Available, Stream, Valid, Finished, Warmed, Aborted, WaitedFor;
      drain := FinishWhen(PlayEnd in events);
      ghost var first, between := reports, clock;
      warmAt := WarmUp();
      Passes();
      goneAt := clock;
      goneDrain := FinishWhen(playState != 0 && clock - lastData >= HOST_GONE_MS);
      WaitedBoth(old(reports), first, reports, between - old(clock), clock - goneAt, clock - old(clock));
      if Stop in events {
        PlayAbort();
      }
    }

    method FinishWhen(over: bool) returns (ghost n: nat)
      requires Valid()
      modifies this`head, this`dropped, this`accepted, this`line, ring
      modifies this`cur, this`written, this`busy, this`played, this`bufsIn, this`clock, this`playState, this`audio, this`reports
      ensures Valid() && old(accepted) <= accepted && Abs() == if over then Finished(old(Abs()), n) else old(Abs())
      ensures clock >= old(clock) && old(reports) <= reports && WaitedFor(reports[|old(reports)|..], clock - old(clock))
    {
      hide Slice, Contents, Available, Valid, Finished;
      n := 0;
      assert reports[|reports|..] == [];
      if over {
        n := PlayFinish();
      }
    }

    /** The worker's loop: every run of it is a run of the specification. */
    method Serve(turns: seq<(bool, bool)>) returns (ghost ts: seq<Turn>)
      requires Valid()
      modifies this, ring
      ensures Valid() && TurnsFit(ts) && Abs() == Run(old(Abs()), ts)
      ensures |ts| == |turns| && forall i :: 0 <= i < |ts| ==> ts[i].cut == (turns[i].0 && !turns[i].1)
    {
      hide Valid, Turned, AllFit;
      ts := [];
      for i := 0 to |turns|
        invariant Valid() && TurnsFit(ts) && Abs() == Run(old(Abs()), ts)
        invariant |ts| == i && forall k :: 0 <= k < i ==> ts[k].cut == (turns[k].0 && !turns[k].1)
      {
        var events;
        ghost var t;
        events, t := TakeTurn(turns[i].0, turns[i].1);
        RunSnoc(old(Abs()), ts, t);
        ts := ts + [t];
      }
    }
  }

  lemma Undecided(b: seq<Byte>)
    requires |b| < HEADER_SIZE
    ensures Firmware.Next(b) == Firmware.Wait
  {
  }

  /** The decision about the front of `b`, told from a copy of its header. */
  lemma ByHeader(b: seq<Byte>, hdr: seq<Byte>)
    requires |b| >= HEADER_SIZE == |hdr| && b[..HEADER_SIZE] == hdr
    ensures !Firmware.GoodHeader(hdr) || U16(hdr, 8) > Firmware.MAX_PAYLOAD ==> Firmware.Next(b) == Firmware.Slip
    ensures Firmware.GoodHeader(hdr) && U16(hdr, 8) <= Firmware.MAX_PAYLOAD && |b| < HEADER_SIZE + U16(hdr, 8) ==>
              Firmware.Next(b) == Firmware.Wait
    ensures Firmware.GoodHeader(hdr) && U16(hdr, 8) <= Firmware.MAX_PAYLOAD && |b| >= HEADER_SIZE + U16(hdr, 8) ==>
              var len := U16(hdr, 8);
              Firmware.Next(b) == if Sum(b[HEADER_SIZE..HEADER_SIZE + len]) % 65536 != U16(hdr, 4) then Firmware.Bad(len)
                                  else Firmware.Take(Firmware.Frame(hdr[6], b[HEADER_SIZE..HEADER_SIZE + len]))
  {
    assert forall i :: 0 <= i < HEADER_SIZE ==> b[i] == hdr[i];
    assert U16(b, 8) == U16(hdr, 8) && U16(b, 4) == U16(hdr, 4);
  }

  lemma WaitedBoth(a: seq<Report>, b: seq<Report>, c: seq<Report>, first: int, second: int, both: int)
    requires a <= b <= c && first <= both && second <= both && WaitedFor(b[|a|..], first) && WaitedFor(c[|b|..], second)
    ensures WaitedFor(c[|a|..], both)
  {
    assert c[|a|..] == b[|a|..] + c[|b|..];
  }

  lemma {:induction false} RunSnoc(p: Player, ts: seq<Turn>, t: Turn)
    requires TurnsFit(ts) && AllFit(t.fed)
    ensures TurnsFit(ts + [t]) && Run(p, ts + [t]) == Turned(Run(p, ts), t)
    decreases |ts|
  {
    hide Turned, AllFit;
    if ts == [] {
      assert ts + [t] == [t] && [t][1..] == [];
    } else {
      assert (ts + [t])[0] == ts[0] && (ts + [t])[1..] == ts[1..] + [t];
      RunSnoc(Turned(p, ts[0]), ts[1..], t);
    }
  }

  lemma NothingToRead(b: seq<Byte>)
    requires Firmware.Next(b) == Firmware.Wait
    ensures Firmware.Scan(b) == Firmware.Reading([], 0, 0) && Firmware.Unread(b) == b
  {
  }

  /** When the worker has caught up, its log is the one-pass reading of everything that was accepted - whatever the
      interleaving was. */
  lemma Quiescent(accepted: seq<Byte>, consumed: nat, log: Firmware.Reading)
    requires consumed <= |accepted| && ReadSoFar(accepted, consumed, log)
    requires Firmware.Next(accepted[consumed..]) == Firmware.Wait
    ensures log == Firmware.Scan(accepted)
    ensures accepted[consumed..] == Firmware.Unread(accepted)
  {
    hide Firmware.Next, Firmware.Scan, Firmware.Unread;
    NothingToRead(accepted[consumed..]);
    assert ReadsOn(accepted, consumed, log, []);
    assert accepted + [] == accepted && accepted[consumed..] + [] == accepted[consumed..];
  }

  /** End to end: a recording streamed by the host after any commands, none of it dropped at the ring, parsed under any
      interleaving, is played unchanged exactly if the module reports all its bytes and no underrun, and had started the codec
      before it handled the end and let it finish before it stopped it. */
  lemma StreamHeard(commands: seq<Packet>, pcm: seq<Byte>, accepted: seq<Byte>, log: Firmware.Reading, p: Player, r: Report)
    requires forall p :: p in commands ==> Firmware.ForModule(p) && Firmware.FrameOf(p).kind != Firmware.PLAY_DATA
    requires accepted == EncodeAll(commands + Firmware.PlayPackets(pcm)) && log == Firmware.Scan(accepted)
    requires Sound(p) && p.total == Firmware.Audio(log.frames) && r in p.reports
    ensures r.heard == pcm <==> r.bytes == |pcm| && r.underrun == 0 && r.started && r.drained
  {
    hide Firmware.Scan, Sound;
    Firmware.StreamAfterCommands(commands, pcm);
    PlayedIff(p, pcm, r);
  }

  /** The outcome of one look at the front of the ring. */
  datatype Verdict = NotYet | SlipIt | BadSum(len: nat) | Good(kind: Byte, len: nat)

  /** A verdict is right about `b`. */
  predicate Judges(v: Verdict, b: seq<Byte>) {
    match v
    case NotYet => Firmware.Next(b) == Firmware.Wait
    case SlipIt => Firmware.Next(b) == Firmware.Slip
    case BadSum(len) => Firmware.Next(b) == Firmware.Bad(len)
    case Good(kind, len) =>
      HEADER_SIZE + len <= |b| && Firmware.Next(b) == Firmware.Take(Firmware.Frame(kind, b[HEADER_SIZE..HEADER_SIZE + len]))
  }

  method KindEvents(kind: Byte, len: nat) returns (events: set<Event>)
    ensures forall f: Firmware.Frame :: f.kind == kind && |f.payload| == len ==> events == EventsOf(f)
  {
    events := {};
    if kind == 0x10 && len > 0 {
      return;
    }
    if kind == 0x11 { events := events + {PlayEnd}; }
    if kind == 8 { events := events + {Start}; }
    if kind == 6 { events := events + {Stop}; }
    if kind == 2 { events := events + {Query}; }
    if kind == 11 { events := events + {Prompt}; }
    if kind == 14 { events := events + {Loop}; }
  }

  lemma OneMore(log: Firmware.Reading, frame: Firmware.Frame)
    ensures var grown := Firmware.Then(log, Firmware.Reading([frame], 0, 0));
            grown.frames == log.frames + [frame] && grown.bad == log.bad
  {
  }

  lemma RanIs(p: Player, n: nat, handed: nat)
    requires p.played + n * PLAY_BUF_BYTES <= handed == Whole(|p.stream|) && (n == 0 || p.state == 2)
    ensures Ran(p, n) == p.(played := p.played + n * PLAY_BUF_BYTES)
  {
  }

  lemma FinishedIdle(p: Player)
    requires Sound(p)
    ensures if p.state == 0 then Finished(p, 0) == p else 1 <= p.state <= 2 && (p.state != 2 ==> p.played == 0)
  {
  }

  lemma FinishedIs(p: Player, n: nat, done: nat, handed: nat, left: nat)
    requires p.state != 0 && handed == Padded(|p.stream|) == done + left * PLAY_BUF_BYTES
    requires done == p.played + n * PLAY_BUF_BYTES && (p.state != 2 ==> n == 0 && p.played == 0)
    ensures Finished(p, n)
            == p.(state := 0, stream := [], played := 0, audio := [],
                  reports := p.reports + [Report(p.bytesIn, p.underrun, p.state == 2, p.state == 2 && left == 0, p.audio,
                                                 p.stream[..Least(done, |p.stream|)])])
  {
  }

  lemma FedNothing(p: Player, f: Fed)
    requires Fits(f) && (AudioOf(f.frame) == [] || (p.state == 0 && f.prompting))
    ensures FedOne(p, f) == p.(total := p.total + AudioOf(f.frame)) && CutShort(p, f) == 0
  {
  }

  lemma FedSome(p: Player, f: Fed)
    requires Fits(f) && AudioOf(f.frame) != [] && (p.state != 0 || !f.prompting)
    ensures var q := if p.state == 0 then Begun(p, f.begunAt) else p;
            FedOne(p, f) == Consumed(q, f.frame.payload, f.at, f.taken).(total := p.total + AudioOf(f.frame))
    ensures CutShort(p, f) == if f.taken < |f.frame.payload| then 1 else 0
  {
  }

  lemma NothingFed(p: Player)
    ensures AllFit([]) && Frames([]) == [] && AllEvents([]) == {} && FedAll(p, []) == p && Cuts(p, []) == 0
  {
  }

  lemma FedJoin(p: Player, a: seq<Fed>, b: seq<Fed>)
    requires AllFit(a) && AllFit(b) && |b| <= 1
    ensures AllFit(a + b) && Frames(a + b) == Frames(a) + Frames(b)
    ensures FedAll(p, a + b) == if b == [] then FedAll(p, a) else FedOne(FedAll(p, a), b[0])
    ensures AllEvents(Frames(a + b)) == AllEvents(Frames(a)) + AllEvents(Frames(b))
    ensures Cuts(p, a + b) == Cuts(p, a) + if b == [] then 0 else CutShort(FedAll(p, a), b[0])
  {
    hide FedOne, EventsOf;
    assert Frames(a + b) == Frames(a) + Frames(b);
    if b == [] {
      assert a + b == a && Frames(b) == [];
    } else {
      assert b == [b[0]] && (a + b)[..|a|] == a;
      assert Frames(b) == [b[0].frame] && Frames(b)[..0] == [];
      assert Frames(a + b)[..|a|] == Frames(a);
    }
  }

  lemma {:induction false} SumSnoc(s: seq<Byte>, b: Byte)
    ensures Sum(s + [b]) == Sum(s) + b
  {
    if s == [] {
      assert s + [b] == [b];
      assert [b][1..] == [];
    } else {
      SumSnoc(s[1..], b);
      assert (s + [b])[1..] == s[1..] + [b];
    }
  }
}
