/** The module's worker: one turn of its loop puts the receive path, the playback and the capture together. */
module Worker {
  import opened Wire
  import opened Playback
  import Firmware
  import Capture
  import RxRing

  class StreamTask {
    const link: RxRing.RxLink
    const module_: Capture.Module

    ghost predicate Valid()
      reads this, link, link.ring, module_
    {
      link.Valid() && module_.Valid() && (module_.active ==> module_.inflight == 0)
    }

    constructor (line: seq<RxRing.Entry>, codec: Capture.Codec, points: nat)
      ensures Valid() && fresh(link) && fresh(link.ring) && fresh(module_) && !module_.active && link.Abs() == SILENT
    {
      link := new RxRing.RxLink(line);
      module_ := new Capture.Module(codec, points);
    }

    /** One turn: frames and playback, then what they mean for the capture. `prompt`, `initialised` and `late` are what prompt,
        codec and clock make of it; a prompt without a capture cuts the turn short. */
    method Turn(prompt: bool, initialised: bool, late: bool) returns (events: set<Event>, ghost t: Playback.Turn)
      requires Valid()
      modifies link, link.ring, module_
      ensures Valid()
      ensures AllFit(t.fed) && link.log.frames == old(link.log.frames) + Frames(t.fed) && link.Abs() == Turned(old(link.Abs()), t)
      ensures events == AllEvents(Frames(t.fed)) && t.cut == (prompt && !old(module_.active))
      ensures if t.cut then module_.offers == old(module_.offers) && !module_.active
              else Answered(events, initialised, late, old(module_.active), old(module_.sent), old(|module_.queue|),
                            old(module_.offers))
    {
      hide Turned, Frames, AllEvents, RxRing.RxLink.Valid, Capture.Module.Valid, Answered;
      events, t := link.TakeTurn(prompt, module_.active);
      if !prompt || module_.active {
        Answer(events, initialised, late);
      }
    }

    /** What a turn's commands come to: a stop ends what runs with its verdict; a start at rest is answered with STARTED or
        FAILED; a query at rest with READY; and a capture that goes on through the turn sent its queued frames, eight at most. */
    ghost predicate Answered(events: set<Event>, initialised: bool, late: bool, active: bool, sent: nat, queued: nat,
                             before: seq<Capture.Offer>)
      reads module_
    {
      var first := |before|;
      && before <= module_.offers
      && (Stop in events ==>
            && !module_.active && |module_.offers| > first
            && module_.offers[first].packet == Capture.StatusPacket(Capture.FINISHED, Capture.Code(Capture.STOP), sent))
      && (Stop !in events && Start in events && !active ==>
            && |module_.offers| > first
            && module_.offers[first].packet
               == if initialised then Capture.StatusPacket(Capture.STARTED, 0, 0)
                  else Capture.StatusPacket(Capture.FAILED, Capture.Code(Capture.CODEC), 0))
      && (Stop !in events && Start !in events && Query in events && !active ==>
            && |module_.offers| == first + 1 && !module_.active
            && module_.offers[first].packet == Capture.StatusPacket(Capture.READY, 0, 0))
      && (Stop !in events && Start !in events && Query !in events && !active ==> module_.offers == before && !module_.active)
      && (active && module_.active ==> module_.sent >= sent + Capture.Least(Capture.QUEUE_FRAMES, queued))
      && (module_.active ==> !late)
    }

    method Answer(events: set<Event>, initialised: bool, late: bool)
      requires Valid()
      modifies module_
      ensures Valid()
      ensures Answered(events, initialised, late, old(module_.active), old(module_.sent), old(|module_.queue|),
                       old(module_.offers))
    {
      hide RxRing.RxLink.Valid, Capture.Module.Valid;
      if Stop in events {
        module_.Stop();
      } else if Start in events && !module_.active {
        module_.Start(initialised);
      }
      if Query in events && !module_.active {
        module_.Query();
      }
      if module_.active {
        var reason := module_.Round(late);
      }
    }
  }
}
