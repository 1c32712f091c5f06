/** Playback on the module, above the ring and the parser: audio goes into buffers, buffers go to the codec, the codec needs to
    have been started to play them, and stopping it discards what it has not played. */
module Playback {
  import opened Wire
  import Firmware

  const PLAY_BUF_BYTES := 2048
  const WARMUP_MS := 400
  const HOST_GONE_MS := 3000
  const DRAIN_MS := 2500

  /** What parsed frames ask of the worker. */
  datatype Event = PlayEnd | Start | Stop | Query | Prompt | Loop

  function EventsOf(f: Firmware.Frame): set<Event> {
    if f.kind == 0x10 && f.payload != [] then {}
    else if f.kind == 0x11 then {PlayEnd}
    else if f.kind == 8 then {Start}
    else if f.kind == 6 then {Stop}
    else if f.kind == 2 then {Query}
    else if f.kind == 11 then {Prompt}
    else if f.kind == 14 then {Loop}
    else {}
  }

  function AllEvents(fs: seq<Firmware.Frame>): set<Event> {
    if fs == [] then {} else AllEvents(fs[..|fs| - 1]) + EventsOf(fs[|fs| - 1])
  }

  /** The end of a playback. The host is told `bytes`, `underrun` and `started`; the rest is history: whether the codec had
      played everything when it was stopped, the audio that arrived, and what of it was played. */
  datatype Report = Report(bytes: nat, underrun: nat, started: bool, drained: bool, audio: seq<Byte>, heard: seq<Byte>)

  /** `state` is 0 idle, 1 warming, 2 playing. `stream` is what was put into buffers since playback began, `played` how many of
      its bytes are in buffers the codec is done with, `audio` what arrived since then, and `total` what arrived since boot. */
  datatype Player = Player(state: int, stream: seq<Byte>, played: nat, bytesIn: nat, underrun: nat, paOn: int, lastData: int,
                           audio: seq<Byte>, total: seq<Byte>, reports: seq<Report>)

  const SILENT := Player(0, [], 0, 0, 0, 0, 0, [], [], [])

  /** A frame and what happened to it: when playback began for it, when it was taken, how many bytes found a buffer, and
      whether a flash prompt owned the output. */
  datatype Fed = Fed(frame: Firmware.Frame, begunAt: int, at: int, taken: nat, prompting: bool)

  function AudioOf(f: Firmware.Frame): seq<Byte> {
    if f.kind == Firmware.PLAY_DATA then f.payload else []
  }

  function Begun(p: Player, now: int): Player {
    p.(state := 1, bytesIn := 0, underrun := 0, paOn := now)
  }

  /** `play_consume` */
  function Consumed(p: Player, payload: seq<Byte>, now: int, taken: nat): Player
    requires taken <= |payload|
  {
    p.(stream := p.stream + payload[..taken], audio := p.audio + payload, bytesIn := p.bytesIn + |payload|,
       underrun := p.underrun + if taken < |payload| then 1 else 0, lastData := now)
  }

  predicate Fits(f: Fed) {
    f.taken <= |f.frame.payload|
  }

  function FedOne(p: Player, f: Fed): Player
    requires Fits(f)
  {
    var q := p.(total := p.total + AudioOf(f.frame));
    if AudioOf(f.frame) == [] then q
    else
      var r := if q.state == 0 && !f.prompting then Begun(q, f.begunAt) else q;
      if r.state == 0 then r else Consumed(r, f.frame.payload, f.at, f.taken)
  }

  predicate AllFit(fs: seq<Fed>) {
    forall f :: f in fs ==> Fits(f)
  }

  function FedAll(p: Player, fs: seq<Fed>): Player
    requires AllFit(fs)
  {
    if fs == [] then p else FedOne(FedAll(p, fs[..|fs| - 1]), fs[|fs| - 1])
  }

  function Frames(fs: seq<Fed>): seq<Firmware.Frame> {
    seq(|fs|, i requires 0 <= i < |fs| => fs[i].frame)
  }

  /** 1 for a frame of which a playback that ran or began did not get everything into buffers. */
  function CutShort(p: Player, f: Fed): nat {
    if AudioOf(f.frame) != [] && (p.state != 0 || !f.prompting) && f.taken < |f.frame.payload| then 1 else 0
  }

  function Cuts(p: Player, fs: seq<Fed>): nat
    requires AllFit(fs)
  {
    if fs == [] then 0 else Cuts(p, fs[..|fs| - 1]) + CutShort(FedAll(p, fs[..|fs| - 1]), fs[|fs| - 1])
  }

  /** A codec that was started is not stopped with anything left before its deadline. */
  predicate WaitedFor(reports: seq<Report>, span: int) {
    forall r :: r in reports && r.started && !r.drained ==> span >= DRAIN_MS
  }

  function Least(a: nat, b: nat): nat {
    if a < b then a else b
  }

  /** Bytes in full buffers, and in all buffers once the last is padded. */
  function Whole(n: nat): nat {
    n - n % PLAY_BUF_BYTES
  }

  function Padded(n: nat): nat {
    Whole(n + PLAY_BUF_BYTES - 1)
  }

  /** A running codec is done with up to `n` more buffers. */
  function Ran(p: Player, n: nat): Player {
    if p.state != 2 then p else p.(played := Least(p.played + n * PLAY_BUF_BYTES, Whole(|p.stream|)))
  }

  /** `play_finish`: the last buffer is padded and handed on; a codec that was started may be done with up to `n` more buffers
      before it is stopped, one that was not is stopped at once. */
  function Finished(p: Player, n: nat): Player {
    if p.state == 0 then p
    else
      var all := Padded(|p.stream|);
      var done := if p.state == 2 then Least(p.played + n * PLAY_BUF_BYTES, all) else 0;
      var report := Report(p.bytesIn, p.underrun, p.state == 2, p.state == 2 && done == all, p.audio, p.stream[..Least(done, |p.stream|)]);
      p.(state := 0, stream := [], played := 0, audio := [], reports := p.reports + [report])
  }

  /** `play_abort` */
  function Aborted(p: Player): Player {
    p.(state := 0, stream := [], played := 0, audio := [])
  }

  function Warmed(p: Player, now: int): Player {
    if p.state == 1 && now - p.paOn >= WARMUP_MS then p.(state := 2) else p
  }

  /** One turn of the worker: what the codec did since the last, the frames it reads, how long the codec is waited for if they
      end the playback, when it looks at the clock. A running flash prompt may cut the turn short after the frames. */
  datatype Turn = Turn(ran: nat, fed: seq<Fed>, cut: bool, drain: nat, warmAt: int, goneAt: int, goneDrain: nat)

  /** What follows the frames: the end is looked for before the warm-up is. */
  function Closed(read: Player, events: set<Event>, drain: nat, warmAt: int, goneAt: int, goneDrain: nat): Player {
    var ended := if PlayEnd in events then Finished(read, drain) else read;
    var warmed := Warmed(ended, warmAt);
    var gone := if warmed.state != 0 && goneAt - warmed.lastData >= HOST_GONE_MS then Finished(warmed, goneDrain) else warmed;
    if Stop in events then Aborted(gone) else gone
  }

  function Turned(p: Player, t: Turn): Player
    requires AllFit(t.fed)
  {
    var read := FedAll(Ran(p, t.ran), t.fed);
    if t.cut then read else Closed(read, AllEvents(Frames(t.fed)), t.drain, t.warmAt, t.goneAt, t.goneDrain)
  }

  predicate TurnsFit(ts: seq<Turn>) {
    forall t :: t in ts ==> AllFit(t.fed)
  }

  function Run(p: Player, ts: seq<Turn>): Player
    requires TurnsFit(ts)
    decreases |ts|
  {
    if ts == [] then p else Run(Turned(p, ts[0]), ts[1..])
  }

  // ----- what every turn keeps -----

  /** `stream` went on from `before` by exactly `audio` if nothing was cut short since, and by less otherwise. */
  predicate Since(stream: seq<Byte>, before: seq<Byte>, audio: seq<Byte>, underrun: nat, underrunBefore: nat) {
    && underrun >= underrunBefore
    && if underrun == underrunBefore then stream == before + audio else |stream| < |before| + |audio|
  }

  predicate EndsWith(whole: seq<Byte>, tail: seq<Byte>) {
    |tail| <= |whole| && whole[|whole| - |tail|..] == tail
  }

  /** `part` is a stretch of `whole`. */
  ghost predicate Stretch(part: seq<Byte>, whole: seq<Byte>) {
    exists i: nat :: StretchAt(part, whole, i)
  }

  predicate StretchAt(part: seq<Byte>, whole: seq<Byte>, i: nat) {
    i + |part| <= |whole| && whole[i..i + |part|] == part
  }

  /** A report tells the bytes that arrived; they were all played exactly if nothing was cut short and the codec, started in
      time, was done when it was stopped. */
  predicate Explained(r: Report) {
    && r.bytes == |r.audio| > 0 && (r.drained ==> r.started)
    && (r.heard == r.audio <==> r.underrun == 0 && r.drained)
    && (!r.started ==> r.heard == [])
    && |r.heard| <= |r.audio|
  }

  predicate Playing(p: Player) {
    && p.bytesIn == |p.audio| > 0 && Since(p.stream, [], p.audio, p.underrun, 0)
    && EndsWith(p.total, p.audio) && p.played <= Whole(|p.stream|) && p.played % PLAY_BUF_BYTES == 0
    && (p.state == 1 ==> p.played == 0)
  }

  ghost predicate Sound(p: Player) {
    && 0 <= p.state <= 2
    && (if p.state == 0 then p.stream == [] && p.audio == [] && p.played == 0 else Playing(p))
    && forall r :: r in p.reports ==> Explained(r) && Stretch(r.audio, p.total)
  }

  lemma SinceSnoc(stream: seq<Byte>, before: seq<Byte>, audio: seq<Byte>, underrun: nat, underrunBefore: nat,
                  payload: seq<Byte>, taken: nat)
    requires Since(stream, before, audio, underrun, underrunBefore) && taken <= |payload|
    ensures Since(stream + payload[..taken], before, audio + payload, underrun + if taken < |payload| then 1 else 0,
                  underrunBefore)
  {
    assert (before + audio) + payload == before + (audio + payload);
    if taken == |payload| {
      assert payload[..taken] == payload;
    }
  }

  lemma StretchGrows(part: seq<Byte>, whole: seq<Byte>, more: seq<Byte>)
    requires Stretch(part, whole)
    ensures Stretch(part, whole + more)
  {
    var i: nat :| StretchAt(part, whole, i);
    assert StretchAt(part, whole + more, i);
  }

  lemma EndGrows(whole: seq<Byte>, tail: seq<Byte>, more: seq<Byte>)
    requires EndsWith(whole, tail)
    ensures EndsWith(whole + more, tail + more)
  {
  }

  lemma ReportsStay(p: Player, total: seq<Byte>)
    requires Sound(p) && p.total <= total
    ensures forall r :: r in p.reports ==> Explained(r) && Stretch(r.audio, total)
  {
    hide Stretch, Explained;
    forall r | r in p.reports
      ensures Stretch(r.audio, total)
    {
      StretchGrows(r.audio, p.total, total[|p.total|..]);
      assert p.total + total[|p.total|..] == total;
    }
  }

  lemma FedKeeps(p: Player, f: Fed)
    requires Sound(p) && Fits(f)
    ensures Sound(FedOne(p, f))
  {
    var audio := AudioOf(f.frame);
    ReportsStay(p, p.total + audio);
    hide Stretch, Explained;
    if p.state == 0 {
      SinceSnoc([], [], [], 0, 0, f.frame.payload, f.taken);
      EndGrows(p.total, [], audio);
    } else {
      SinceSnoc(p.stream, [], p.audio, p.underrun, 0, f.frame.payload, f.taken);
      EndGrows(p.total, p.audio, audio);
    }
    assert p.total + [] == p.total;
    hide Since, EndsWith;
  }

  lemma {:induction false} FedAllKeeps(p: Player, fs: seq<Fed>)
    requires Sound(p) && AllFit(fs)
    ensures Sound(FedAll(p, fs))
  {
    hide Sound, FedOne;
    if fs != [] {
      FedAllKeeps(p, fs[..|fs| - 1]);
      FedKeeps(FedAll(p, fs[..|fs| - 1]), fs[|fs| - 1]);
    }
  }

  /** The one statement about the end of a playback: everything that arrived was played if and only if nothing was cut short,
      the codec had been started, and it was done with all buffers when it was stopped. */
  lemma FinishedIff(p: Player, n: nat)
    requires Sound(p) && p.state != 0
    ensures var r := Finished(p, n).reports[|p.reports|];
            && r.bytes == |p.audio| && r.underrun == p.underrun && r.audio == p.audio
            && (r.heard == p.audio <==>
                  p.underrun == 0 && p.state == 2 && p.played + n * PLAY_BUF_BYTES >= Padded(|p.stream|))
    ensures Explained(Finished(p, n).reports[|p.reports|])
  {
    var all := Padded(|p.stream|);
    var done := if p.state == 2 then Least(p.played + n * PLAY_BUF_BYTES, all) else 0;
    BuffersCover(|p.stream|, done);
    hide Padded;
  }

  /** A whole number of buffers covers all bytes only if it is all buffers. */
  lemma BuffersCover(n: nat, done: nat)
    requires done % PLAY_BUF_BYTES == 0 && done <= Padded(n)
    ensures Padded(n) >= n && (n > 0 ==> Padded(n) > 0) && Padded(n) % PLAY_BUF_BYTES == 0
    ensures done >= n <==> done == Padded(n)
  {
  }

  lemma FinishedKeeps(p: Player, n: nat)
    requires Sound(p)
    ensures Sound(Finished(p, n))
  {
    if p.state != 0 {
      FinishedIff(p, n);
      assert StretchAt(p.audio, p.total, |p.total| - |p.audio|);
      hide Explained, StretchAt, Padded;
    }
  }

  lemma RanKeeps(p: Player, n: nat)
    requires Sound(p)
    ensures Sound(Ran(p, n))
  {
    hide Since, EndsWith, Explained, Stretch;
  }

  lemma RestKeeps(p: Player, now: int)
    requires Sound(p)
    ensures Sound(Warmed(p, now)) && Sound(Aborted(p))
  {
    hide Since, EndsWith, Explained, Stretch, Whole;
  }

  lemma TurnKeeps(p: Player, t: Turn)
    requires Sound(p) && AllFit(t.fed)
    ensures Sound(Turned(p, t))
  {
    hide Sound, Ran, FedAll, Finished, Warmed, Aborted, AllEvents;
    RanKeeps(p, t.ran);
    FedAllKeeps(Ran(p, t.ran), t.fed);
    var read := FedAll(Ran(p, t.ran), t.fed);
    FinishedKeeps(read, t.drain);
    var ended := if PlayEnd in AllEvents(Frames(t.fed)) then Finished(read, t.drain) else read;
    RestKeeps(ended, t.warmAt);
    var warmed := Warmed(ended, t.warmAt);
    FinishedKeeps(warmed, t.goneDrain);
    RestKeeps(warmed, 0);
    RestKeeps(Finished(warmed, t.goneDrain), 0);
  }

  /** Over every run: each playback the host is told about is explained. */
  lemma {:induction false} RunKeeps(p: Player, ts: seq<Turn>)
    requires Sound(p) && TurnsFit(ts)
    ensures Sound(Run(p, ts))
    decreases |ts|
  {
    hide Sound, Turned;
    if ts != [] {
      TurnKeeps(p, ts[0]);
      RunKeeps(Turned(p, ts[0]), ts[1..]);
    }
  }

  /** Of a recording that is all the audio there ever was, the speaker plays exactly what was recorded if and only if the
      report tells all its bytes and no underrun, and the codec was started before the end was handled and done with everything
      when it was stopped. */
  lemma PlayedIff(p: Player, pcm: seq<Byte>, r: Report)
    requires Sound(p) && p.total == pcm && r in p.reports
    ensures r.heard == pcm <==> r.bytes == |pcm| && r.underrun == 0 && r.started && r.drained
  {
    assert Explained(r) && Stretch(r.audio, pcm);
    var i: nat :| StretchAt(r.audio, pcm, i);
    if |r.audio| == |pcm| {
      assert pcm[0..|pcm|] == pcm;
    }
  }

  /** While playback runs and does not end, the buffers get exactly the audio of the frames if and only if no underrun is counted
      meanwhile. */
  lemma {:induction false} CutShortIff(p: Player, fs: seq<Fed>)
    requires AllFit(fs) && p.state != 0
    ensures var q := FedAll(p, fs);
            && q.state == p.state && q.underrun >= p.underrun
            && Since(q.stream, p.stream, Firmware.Audio(Frames(fs)), q.underrun, p.underrun)
  {
    if fs == [] {
      assert p.stream + [] == p.stream;
    } else {
      var n := |fs| - 1;
      var q, f := FedAll(p, fs[..n]), fs[n];
      assert f in fs;
      CutShortIff(p, fs[..n]);
      assert Frames(fs) == Frames(fs[..n]) + [f.frame];
      AudioSnoc(Frames(fs[..n]), f.frame);
      SinceSnoc(q.stream, p.stream, Firmware.Audio(Frames(fs[..n])), q.underrun, p.underrun, AudioOf(f.frame),
                if AudioOf(f.frame) == [] then 0 else f.taken);
      hide Firmware.Audio;
    }
  }

  lemma NoAudio()
    ensures Firmware.Audio([]) == []
  {
  }

  lemma AudioFirst(fs: seq<Firmware.Frame>)
    requires fs != []
    ensures Firmware.Audio(fs) == AudioOf(fs[0]) + Firmware.Audio(fs[1..])
  {
  }

  lemma {:induction false} AudioSnoc(fs: seq<Firmware.Frame>, f: Firmware.Frame)
    ensures Firmware.Audio(fs + [f]) == Firmware.Audio(fs) + AudioOf(f)
  {
    hide Firmware.Audio;
    AudioFirst(fs + [f]);
    if fs == [] {
      assert fs + [f] == [f] && [f][1..] == [];
      NoAudio();
    } else {
      var rest := fs[1..];
      AudioSnoc(rest, f);
      AudioFirst(fs);
      assert (fs + [f])[1..] == rest + [f];
    }
  }

  /** The host counts as there from the last audio on, the warm-up from the first. */
  lemma ClocksAreSet(p: Player, f: Fed)
    requires Fits(f) && AudioOf(f.frame) != [] && (p.state != 0 || !f.prompting)
    ensures FedOne(p, f).lastData == f.at
    ensures p.state == 0 ==> FedOne(p, f).state == 1 && FedOne(p, f).paOn == f.begunAt
    ensures p.state != 0 ==> FedOne(p, f).state == p.state && FedOne(p, f).paOn == p.paOn
  {
  }

  // ----- what the host's commands do -----

  /** The host's command packets. */
  const STOP_CAPTURE := 0x106
  const START_CAPTURE := 0x108
  const QUERY_MODULE := 0x102
  const START_PROMPT := 0x10B
  const START_LOOP := 0x10E
  const END_PLAYBACK := 0x111

  predicate Sends(ps: seq<Packet>, kind: int) {
    exists p :: p in ps && p.kind == kind
  }

  lemma {:induction false} AllEventsIff(fs: seq<Firmware.Frame>, e: Event)
    ensures e in AllEvents(fs) <==> exists f :: f in fs && e in EventsOf(f)
  {
    hide EventsOf;
    if fs != [] {
      AllEventsIff(fs[..|fs| - 1], e);
      assert fs == fs[..|fs| - 1] + [fs[|fs| - 1]];
    }
  }

  lemma EventOfPacket(p: Packet)
    requires Firmware.ForModule(p)
    ensures var es := EventsOf(Firmware.FrameOf(p));
            && (Stop in es <==> p.kind == STOP_CAPTURE) && (Start in es <==> p.kind == START_CAPTURE)
            && (Query in es <==> p.kind == QUERY_MODULE) && (Prompt in es <==> p.kind == START_PROMPT)
            && (Loop in es <==> p.kind == START_LOOP) && (PlayEnd in es <==> p.kind == END_PLAYBACK)
  {
    assert p.kind == 256 + p.kind % 256;
  }

  lemma SentIsHeard(ps: seq<Packet>, kind: int, e: Event)
    requires forall p :: p in ps ==> Firmware.ForModule(p) && (e in EventsOf(Firmware.FrameOf(p)) <==> p.kind == kind)
    ensures e in AllEvents(Firmware.FramesOf(ps)) <==> Sends(ps, kind)
  {
    hide EventsOf, Firmware.ForModule, Firmware.FrameOf;
    var fs := Firmware.FramesOf(ps);
    AllEventsIff(fs, e);
    if p :| p in ps && p.kind == kind {
      var i :| 0 <= i < |ps| && ps[i] == p;
      assert fs[i] == Firmware.FrameOf(p) && fs[i] in fs;
    }
    if f :| f in fs && e in EventsOf(f) {
      var i :| 0 <= i < |fs| && fs[i] == f;
      assert ps[i] in ps && f == Firmware.FrameOf(ps[i]);
    }
  }

  /** The worker is asked for exactly what the host's packets ask for. */
  lemma CommandsHeard(ps: seq<Packet>)
    requires forall p :: p in ps ==> Firmware.ForModule(p)
    ensures var es := AllEvents(Firmware.FramesOf(ps));
            && (Stop in es <==> Sends(ps, STOP_CAPTURE)) && (Start in es <==> Sends(ps, START_CAPTURE))
            && (Query in es <==> Sends(ps, QUERY_MODULE)) && (Prompt in es <==> Sends(ps, START_PROMPT))
            && (Loop in es <==> Sends(ps, START_LOOP)) && (PlayEnd in es <==> Sends(ps, END_PLAYBACK))
  {
    forall p | p in ps
      ensures Firmware.ForModule(p)
    {
      EventOfPacket(p);
    }
    hide EventsOf, AllEvents, Firmware.ForModule, Firmware.FrameOf, Firmware.FramesOf, Sends;
    SentIsHeard(ps, STOP_CAPTURE, Stop);
    SentIsHeard(ps, START_CAPTURE, Start);
    SentIsHeard(ps, QUERY_MODULE, Query);
    SentIsHeard(ps, START_PROMPT, Prompt);
    SentIsHeard(ps, START_LOOP, Loop);
    SentIsHeard(ps, END_PLAYBACK, PlayEnd);
  }

  /** A turn that reads the host's stop packet ends idle, whatever ran. */
  lemma StopEndsPlayback(p: Player, t: Turn, ps: seq<Packet>)
    requires AllFit(t.fed) && !t.cut && (forall p :: p in ps ==> Firmware.ForModule(p))
    requires Frames(t.fed) == Firmware.FramesOf(ps) && Sends(ps, STOP_CAPTURE)
    ensures Turned(p, t).state == 0 && Turned(p, t).stream == []
  {
    CommandsHeard(ps);
    hide AllEvents, FedAll, Finished, Warmed, Ran;
  }

  /** A turn that reads the end packet, or finds the host gone, ends a playback and reports it. */
  lemma EndIsReported(p: Player, t: Turn, ps: seq<Packet>)
    requires AllFit(t.fed) && !t.cut && (forall p :: p in ps ==> Firmware.ForModule(p))
    requires Frames(t.fed) == Firmware.FramesOf(ps)
    requires var read := FedAll(Ran(p, t.ran), t.fed);
             read.state != 0 && (Sends(ps, END_PLAYBACK) || t.goneAt - read.lastData >= HOST_GONE_MS)
    ensures var read, after := FedAll(Ran(p, t.ran), t.fed), Turned(p, t);
            && after.state == 0 && |after.reports| == |read.reports| + 1 && read.reports <= after.reports
            && after.reports[|read.reports|].audio == read.audio && after.reports[|read.reports|].bytes == read.bytesIn
  {
    CommandsHeard(ps);
    hide AllEvents, FedAll, Ran, Padded;
  }

  /** No other command touches a playback: unless end or stop is read, or the host is gone, it goes on with everything it has,
      and starts the codec when the warm-up is over. */
  lemma OthersLeavePlayback(p: Player, t: Turn, ps: seq<Packet>)
    requires AllFit(t.fed) && (forall p :: p in ps ==> Firmware.ForModule(p)) && Frames(t.fed) == Firmware.FramesOf(ps)
    requires !Sends(ps, STOP_CAPTURE) && !Sends(ps, END_PLAYBACK)
    ensures var read, after := FedAll(Ran(p, t.ran), t.fed), Turned(p, t);
            t.goneAt - read.lastData < HOST_GONE_MS ==>
              && after.reports == read.reports && after.stream == read.stream && after.audio == read.audio
              && (after.state == 0 <==> read.state == 0)
              && (!t.cut && read.state == 1 && t.warmAt - read.paOn >= WARMUP_MS <==> after.state != read.state)
              && (after.state != read.state ==> after.state == 2)
  {
    CommandsHeard(ps);
    hide AllEvents, FedAll, Ran;
  }

  // ----- what is lost though nothing says so -----

  lemma {:induction false} FedWarming(p: Player, fs: seq<Fed>)
    requires AllFit(fs) && p.state == 1
    ensures var q := FedAll(p, fs); q.state == 1 && q.paOn == p.paOn && q.reports == p.reports
  {
    if fs != [] {
      FedWarming(p, fs[..|fs| - 1]);
    }
  }

  lemma {:induction false} FedNotPlaying(p: Player, fs: seq<Fed>)
    requires AllFit(fs) && p.state != 2
    ensures var q := FedAll(p, fs); q.state != 2 && q.reports == p.reports
  {
    if fs != [] {
      FedNotPlaying(p, fs[..|fs| - 1]);
    }
  }

  /** A playback whose end is handled before the codec was started is not heard at all, and the host is told that all its bytes
      arrived. */
  lemma EndedBeforeStart(p: Player, t: Turn)
    requires Sound(p) && AllFit(t.fed) && p.state != 2 && !t.cut && PlayEnd in AllEvents(Frames(t.fed))
    ensures var read := FedAll(p, t.fed);
            var reports := Turned(p, t).reports;
            && p.reports <= reports
            && (read.state != 0 ==>
                  |reports| > |p.reports|
                  && var r := reports[|p.reports|];
                     r.audio == read.audio && r.bytes == |read.audio| && r.underrun == read.underrun && !r.started && r.heard == [])
  {
    hide AllEvents, Padded;
    FedNotPlaying(p, t.fed);
    var read := FedAll(p, t.fed);
    FedAllKeeps(p, t.fed);
    assert Ran(p, t.ran) == p;
    hide FedAll, Sound;
  }

  /** A turn that hears of no end, and looks at the clock before the warm-up is over. */
  predicate Warming(p: Player, t: Turn)
    requires AllFit(t.fed)
  {
    && t.warmAt - p.paOn < WARMUP_MS && t.goneAt - FedAll(Ran(p, t.ran), t.fed).lastData < HOST_GONE_MS
    && PlayEnd !in AllEvents(Frames(t.fed)) && Stop !in AllEvents(Frames(t.fed))
  }

  predicate AllWarming(p: Player, ts: seq<Turn>)
    requires TurnsFit(ts)
    decreases |ts|
  {
    ts == [] || (Warming(p, ts[0]) && AllWarming(Turned(p, ts[0]), ts[1..]))
  }

  lemma {:induction false} StillWarming(p: Player, ts: seq<Turn>)
    requires TurnsFit(ts) && p.state == 1 && AllWarming(p, ts)
    ensures Run(p, ts).state == 1 && Run(p, ts).paOn == p.paOn && Run(p, ts).reports == p.reports
    decreases |ts|
  {
    if ts != [] {
      FedWarming(p, ts[0].fed);
      hide FedAll, AllEvents;
      StillWarming(Turned(p, ts[0]), ts[1..]);
    }
  }

  /** So every recording whose end is handled within the warm-up is lost, however it arrives. */
  lemma EndWithinWarmUpIsLost(p: Player, ts: seq<Turn>, last: Turn)
    requires Sound(p) && p.state == 1 && TurnsFit(ts) && AllWarming(p, ts)
    requires AllFit(last.fed) && !last.cut && PlayEnd in AllEvents(Frames(last.fed))
    ensures var q := Run(p, ts);
            var reports := Turned(q, last).reports;
            && |reports| > |p.reports| && reports[|p.reports|].heard == [] && !reports[|p.reports|].started
            && reports[|p.reports|].bytes == |FedAll(q, last.fed).audio| > 0
  {
    var q := Run(p, ts);
    StillWarming(p, ts);
    RunKeeps(p, ts);
    FedWarming(q, last.fed);
    FedAllKeeps(q, last.fed);
    EndedBeforeStart(q, last);
    hide Run, Turned, FedAll, AllEvents, Since, EndsWith, Explained;
  }

  /** A recording of one packet, read in one turn with its end: the host is told all its bytes and no underrun, and nothing was
      played - whatever the clocks say. */
  lemma ShortRecordingLost(pcm: seq<Byte>, t: Turn, now: int)
    requires 0 < |pcm| <= Firmware.CHUNK && !t.cut
    requires t.fed == [Fed(Firmware.Frame(Firmware.PLAY_DATA, pcm), now, now, |pcm|, false),
                       Fed(Firmware.Frame(Firmware.PLAY_END, []), now, now, 0, false)]
    ensures Frames(t.fed) == Firmware.FramesOf(Firmware.PlayPackets(pcm))
    ensures var end := Turned(SILENT, t);
            |end.reports| > 0 && var r := end.reports[0];
            r.bytes == |pcm| && r.underrun == 0 && r.audio == pcm && r.heard == [] && !r.started
  {
    var data, over := t.fed[0], t.fed[1];
    FedTwo(SILENT, data, over);
    TwoEvents(data, over);
    OnePacket(pcm);
    hide FedAll, AllEvents;
    assert pcm[..|pcm|] == pcm;
    EndedBeforeStart(SILENT, t);
    hide Turned, Sound;
  }

  lemma FedTwo(p: Player, f: Fed, g: Fed)
    requires AllFit([f, g])
    ensures Fits(f) && Fits(g) && FedAll(p, [f, g]) == FedOne(FedOne(p, f), g)
  {
    hide FedOne;
    assert f in [f, g] && g in [f, g];
    assert [f, g][..1] == [f] && [f][..0] == [];
    assert FedAll(p, [f]) == FedOne(FedAll(p, []), f);
  }

  lemma TwoEvents(f: Fed, g: Fed)
    ensures Frames([f, g]) == [f.frame, g.frame]
    ensures EventsOf(g.frame) <= AllEvents(Frames([f, g]))
  {
    hide EventsOf;
  }

  lemma OnePacket(pcm: seq<Byte>)
    requires 0 < |pcm| <= Firmware.CHUNK
    ensures Firmware.FramesOf(Firmware.PlayPackets(pcm))
            == [Firmware.Frame(Firmware.PLAY_DATA, pcm), Firmware.Frame(Firmware.PLAY_END, [])]
  {
    assert pcm[..|pcm|] == pcm && pcm[|pcm|..] == [];
    assert Firmware.PlayPackets([]) == [Firmware.EndPacket()];
    assert Firmware.PlayPackets(pcm) == [Firmware.PlayPacket(pcm)] + [Firmware.EndPacket()];
  }
}
