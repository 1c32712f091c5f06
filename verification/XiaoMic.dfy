/** The network microphone's buffer: two-byte samples arrive in pieces of any length and leave in whole frames. */
module XiaoMic {
  import opened Optional
  import opened Wire

  const FRAME := 640

  /** What a push counts as overflow of a buffer of `length` bytes: the excess, rounded up to even. */
  function Counted(length: nat, maxBuffer: int): nat {
    var extra := length - maxBuffer;
    if extra <= 0 then 0 else extra + extra % 2
  }

  /** What it removes: it cannot remove more bytes than there are. */
  function Removed(length: nat, maxBuffer: int): nat {
    if Counted(length, maxBuffer) <= length then Counted(length, maxBuffer) else length
  }

  /** The buffer bound is kept, and at most one byte more than needed goes. */
  lemma RemovalFits(length: nat, maxBuffer: int)
    ensures maxBuffer >= 0 ==> length - Removed(length, maxBuffer) <= maxBuffer
    ensures length - Removed(length, maxBuffer) >= maxBuffer - 1 || Removed(length, maxBuffer) == 0
  {
  }

  /** Whole samples are removed, and all that is counted is removed, whatever arrives, exactly when the buffer may hold at
      least one byte. */
  lemma RemovalIsWholeIff(maxBuffer: int)
    ensures (forall length: nat :: Removed(length, maxBuffer) % 2 == 0) <==> maxBuffer >= 1
    ensures (forall length: nat :: Removed(length, maxBuffer) == Counted(length, maxBuffer)) <==> maxBuffer >= 1
  {
    if maxBuffer < 1 {
      assert Removed(1, maxBuffer) == 1 && Counted(1, maxBuffer) > 1;
    }
  }

  lemma WholeAt(length: nat, maxBuffer: int)
    ensures maxBuffer >= 1 ==> Removed(length, maxBuffer) % 2 == 0
    ensures length - Removed(length, maxBuffer) <= maxBuffer || Removed(length, maxBuffer) == length
    ensures var extra := length - maxBuffer; extra <= 0 ==> Counted(length, maxBuffer) == Removed(length, maxBuffer) == 0
    ensures var extra := length - maxBuffer;
            extra > 0 ==>
              && Counted(length, maxBuffer) == extra + extra % 2
              && Removed(length, maxBuffer) == if extra + extra % 2 <= length then extra + extra % 2 else length
  {
  }

  /** The samples of a run of bytes that starts on a sample boundary. */
  function Samples(bytes: seq<Byte>): (samples: seq<(Byte, Byte)>)
    ensures |samples| == |bytes| / 2
  {
    seq(|bytes| / 2, i requires 0 <= i < |bytes| / 2 => (bytes[2 * i], bytes[2 * i + 1]))
  }

  lemma SamplesOfSlice(bytes: seq<Byte>, from: nat, to: nat)
    requires from <= to <= |bytes| && from % 2 == 0 && to % 2 == 0
    ensures Samples(bytes[from..to]) == Samples(bytes)[from / 2..to / 2]
  {
  }

  datatype Act = Pushed(data: seq<Byte>) | Flushed | Read | Disconnected

  /** What was received and how much of it left the buffer; and what a run makes of them. */
  datatype Stream = Stream(fed: seq<Byte>, gone: nat, overflow: int)

  function Did(s: Stream, act: Act, maxBuffer: int): Stream
    requires s.gone <= |s.fed|
  {
    var held := |s.fed| - s.gone;
    match act
    case Pushed(data) =>
      Stream(s.fed + data, s.gone + Removed(held + |data|, maxBuffer), s.overflow + Counted(held + |data|, maxBuffer))
    case Flushed => s.(gone := s.gone + held - held % 2)
    case Read => if held >= FRAME then s.(gone := s.gone + FRAME) else s
    case Disconnected => s.(fed := s.fed[..|s.fed| - held % 2])
  }

  class Microphone {
    const maxBuffer: int
    var buf: seq<Byte>
    var overflow: int

    ghost var fed: seq<Byte>   // everything received, without the half samples of broken connections
    ghost var gone: nat        // how much of it has left the front of the buffer

    /** The buffer is what has not left yet. */
    ghost function Abs(): Stream
      reads this
    {
      Stream(fed, gone, overflow)
    }

    ghost predicate Valid()
      reads this
    {
      gone <= |fed| && buf == fed[gone..]
    }

    /** The buffer begins with the first byte of a sample. */
    ghost predicate Aligned()
      reads this
    {
      gone % 2 == 0
    }

    constructor (maxBuffer: int)
      ensures Valid() && Aligned() && this.maxBuffer == maxBuffer && buf == fed == [] && overflow == 0
    {
      this.maxBuffer := maxBuffer;
      buf, overflow, fed, gone := [], 0, [], 0;
    }

    /** `_push` */
    method Push(data: seq<Byte>)
      requires Valid()
      modifies this
      ensures Abs() == Did(old(Abs()), Pushed(data), maxBuffer)
      ensures Valid() && fed == old(fed) + data && gone == old(gone) + Removed(|old(buf)| + |data|, maxBuffer)
      ensures overflow == old(overflow) + Counted(|old(buf)| + |data|, maxBuffer)
      ensures |buf| <= maxBuffer || buf == []
      ensures maxBuffer >= 1 && old(Aligned()) ==> Aligned()
    {
      hide Counted, Removed;
      buf := buf + data;
      fed := fed + data;
      assert buf == fed[gone..];
      WholeAt(|buf|, maxBuffer);
      var extra := |buf| - maxBuffer;
      if extra > 0 {
        extra := extra + extra % 2;
        var n := if extra <= |buf| then extra else |buf|;
        assert n == Removed(|buf|, maxBuffer);
        buf := buf[n..];
        gone := gone + n;
        overflow := overflow + extra;
      }
    }

    /** `flush`: everything but a half sample. */
    method Flush()
      requires Valid()
      modifies this`buf, this`gone
      ensures Abs() == Did(old(Abs()), Flushed, maxBuffer)
      ensures Valid() && |buf| == |old(buf)| % 2 && gone == old(gone) + |old(buf)| - |buf| && (old(Aligned()) ==> Aligned())
    {
      var n := |buf| - |buf| % 2;
      buf := buf[n..];
      gone := gone + n;
    }

    /** `read_frame`; None where the wait times out. */
    method ReadFrame() returns (frame: Option<seq<Byte>>)
      requires Valid()
      modifies this`buf, this`gone
      ensures Abs() == Did(old(Abs()), Read, maxBuffer)
      ensures Valid() && (frame.Some? <==> |old(buf)| >= FRAME) && (old(Aligned()) ==> Aligned())
      ensures frame.Some? ==> gone == old(gone) + FRAME && frame.value == fed[old(gone)..gone]
      ensures frame.Some? && old(Aligned()) ==> Samples(frame.value) == Samples(fed)[old(gone) / 2..gone / 2]
      ensures frame.None? ==> gone == old(gone)
    {
      if |buf| < FRAME {
        return None;
      }
      ghost var from := gone;
      frame := Some(buf[..FRAME]);
      buf := buf[FRAME..];
      gone := gone + FRAME;
      assert fed[from..gone] == fed[from..][..FRAME];
      if from % 2 == 0 {
        SamplesOfSlice(fed, from, gone);
      }
    }

    /** The end of a connection: its half sample is dropped, for the next one starts on a sample boundary. */
    method Disconnect()
      requires Valid()
      modifies this`buf, this`fed
      ensures Abs() == Did(old(Abs()), Disconnected, maxBuffer)
      ensures Valid() && gone == old(gone) && |buf| % 2 == 0 && buf <= old(buf) && |old(buf)| - |buf| <= 1
      ensures fed <= old(fed) && |fed| - |buf| == old(|fed| - |buf|)
      ensures Aligned() ==> |fed| % 2 == 0
    {
      var n := |buf| - |buf| % 2;
      fed := fed[..|fed| - |buf| % 2];
      buf := buf[..n];
    }
  }

  ghost predicate Leads(acts: seq<Act>, maxBuffer: int, s: Stream)
    decreases |acts|
  {
    if acts == [] then s == Stream([], 0, 0)
    else
      exists before: Stream :: Leads(acts[..|acts| - 1], maxBuffer, before) && before.gone <= |before.fed|
                               && s == Did(before, acts[|acts| - 1], maxBuffer)
  }

  /** Over any run, whatever the bound: every frame handed out is 320 whole, consecutive samples of the stream. (With no room
      for a byte the buffer does lose its alignment, but then nothing is ever handed out.) */
  method Run(acts: seq<Act>, maxBuffer: int) returns (mic: Microphone, frames: seq<seq<Byte>>, ghost starts: seq<nat>)
    ensures |starts| == |frames| && mic.Valid() && (maxBuffer >= 1 ==> mic.Aligned())
    ensures Leads(acts, maxBuffer, mic.Abs())
    ensures forall i :: 0 <= i < |frames| ==>
              && starts[i] % 2 == 0 && starts[i] + FRAME <= mic.gone
              && Samples(frames[i]) == Samples(mic.fed)[starts[i] / 2..(starts[i] + FRAME) / 2]
    ensures forall i, j :: 0 <= i < j < |frames| ==> starts[i] + FRAME <= starts[j]
  {
    hide Samples, Handed, Did, Leads;
    mic := new Microphone(maxBuffer);
    frames, starts := [], [];
    NothingHanded(maxBuffer);
    assert acts[..0] == [];
    for k := 0 to |acts|
      invariant mic.Valid() && mic.maxBuffer == maxBuffer && fresh(mic)
      invariant if maxBuffer >= 1 then mic.Aligned() else mic.buf == []
      invariant Handed(frames, starts, mic.fed, mic.gone) && Leads(acts[..k], maxBuffer, mic.Abs())
    {
      ghost var before := mic.Abs();
      var frame := Play(mic, acts[k]);
      LeadsOn(acts[..k], acts[k], maxBuffer, before, mic.Abs());
      assert acts[..k] + [acts[k]] == acts[..k + 1];
      if frame.Some? {
        HandedMore(frames, starts, before.fed, before.gone, frame.value);
        frames, starts := frames + [frame.value], starts + [before.gone];
      } else {
        HandedStays(frames, starts, before.fed, before.gone, mic.fed, mic.gone);
      }
    }
    assert acts[..|acts|] == acts;
    HandedSamples(frames, starts, mic.fed, mic.gone);
  }

  /** Each frame handed out is a whole-sample slice of the stream that has left the buffer, behind the one before. */
  ghost predicate Handed(frames: seq<seq<Byte>>, starts: seq<nat>, fed: seq<Byte>, gone: nat) {
    && |starts| == |frames| && gone <= |fed|
    && (forall i :: 0 <= i < |frames| ==>
          starts[i] % 2 == 0 && starts[i] + FRAME <= gone && frames[i] == fed[starts[i]..starts[i] + FRAME])
    && forall i, j :: 0 <= i < j < |frames| ==> starts[i] + FRAME <= starts[j]
  }

  /** One act; only reading hands out a frame. */
  method Play(mic: Microphone, act: Act) returns (frame: Option<seq<Byte>>)
    requires mic.Valid() && (if mic.maxBuffer >= 1 then mic.Aligned() else mic.buf == [])
    modifies mic
    ensures mic.Valid() && (if mic.maxBuffer >= 1 then mic.Aligned() else mic.buf == [])
    ensures mic.Abs() == Did(old(mic.Abs()), act, mic.maxBuffer) && (frame.Some? <==> act.Read? && |old(mic.buf)| >= FRAME)
    ensures frame.Some? ==> mic.fed == old(mic.fed) && mic.gone == old(mic.gone) + FRAME
                            && frame.value == mic.fed[old(mic.gone)..mic.gone] && mic.maxBuffer >= 1
    ensures mic.gone >= old(mic.gone) && (mic.fed <= old(mic.fed) || old(mic.fed) <= mic.fed)
  {
    hide Samples, Did;
    frame := None;
    match act
    case Pushed(data) => mic.Push(data);
    case Flushed => mic.Flush();
    case Read => frame := mic.ReadFrame();
    case Disconnected => mic.Disconnect();
  }

  lemma LeadsOn(acts: seq<Act>, act: Act, maxBuffer: int, before: Stream, after: Stream)
    requires Leads(acts, maxBuffer, before) && before.gone <= |before.fed| && after == Did(before, act, maxBuffer)
    ensures Leads(acts + [act], maxBuffer, after)
  {
    hide Did;
    assert (acts + [act])[..|acts|] == acts;
  }

  lemma NothingHanded(maxBuffer: int)
    ensures Handed([], [], [], 0) && Leads([], maxBuffer, Stream([], 0, 0))
  {
  }

  lemma HandedStays(frames: seq<seq<Byte>>, starts: seq<nat>, fed: seq<Byte>, gone: nat, fed': seq<Byte>, gone': nat)
    requires Handed(frames, starts, fed, gone) && gone <= gone' <= |fed'| && (fed <= fed' || fed' <= fed)
    ensures Handed(frames, starts, fed', gone')
  {
  }

  lemma HandedMore(frames: seq<seq<Byte>>, starts: seq<nat>, fed: seq<Byte>, gone: nat, frame: seq<Byte>)
    requires Handed(frames, starts, fed, gone) && gone % 2 == 0 && gone + FRAME <= |fed|
    requires frame == fed[gone..gone + FRAME]
    ensures Handed(frames + [frame], starts + [gone], fed, gone + FRAME)
  {
  }

  lemma HandedSamples(frames: seq<seq<Byte>>, starts: seq<nat>, fed: seq<Byte>, gone: nat)
    requires Handed(frames, starts, fed, gone)
    ensures |starts| == |frames|
    ensures forall i :: 0 <= i < |frames| ==>
              && starts[i] % 2 == 0 && starts[i] + FRAME <= gone <= |fed|
              && Samples(frames[i]) == Samples(fed)[starts[i] / 2..(starts[i] + FRAME) / 2]
    ensures forall i, j :: 0 <= i < j < |frames| ==> starts[i] + FRAME <= starts[j]
  {
    hide Samples;
    forall i | 0 <= i < |frames|
      ensures Samples(frames[i]) == Samples(fed)[starts[i] / 2..(starts[i] + FRAME) / 2]
    {
      SamplesOfSlice(fed, starts[i], starts[i] + FRAME);
    }
  }
}
