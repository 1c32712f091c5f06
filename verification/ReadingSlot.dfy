/** Three clients share one reading worker that has a single result slot and does not know who asked: the cause of a blocked
    path, the fall monitor (with its cross-check) and the zone inspector. */
module ReadingSlot {
  import opened Optional

  datatype Client = PATH | FALL | CROSS | ZONE

  datatype Frame = Frame(id: nat, received: int)

  /** A submitted question. The number tells questions about one frame apart; the worker hands out no such thing. */
  datatype Job = Job(number: nat, frame: Frame)

  datatype Reading = Reading(job: Job, answer: Option<bool>, degraded: bool)

  class Worker {
    var running: Option<Job>
    var slot: Option<Reading>
    var submitted: nat
    var loaded: bool                  // the model is loaded

    ghost var last: Option<Reading>   // what the last reading that ended left, if anything
    ghost var owner: Option<Client>   // who submitted last and has not taken the result yet
    ghost var job: Option<Job>        // what was submitted

    /** The slot is empty unless its content answers the owner's question. */
    ghost predicate Valid()
      reads this
    {
      && (owner.None? ==> running.None? && slot.None?)
      && (owner.Some? ==> job.Some? && (running.None? ==> slot == last))
      && (running.Some? ==> running == job && slot.None?)
      && (slot.Some? ==> Some(slot.value.job) == job)
      && (job.Some? ==> job.value.number < submitted)
    }

    constructor ()
      ensures Valid() && owner.None? && running.None? && slot.None?
    {
      running, slot, submitted, loaded := None, None, 0, false;
      owner, job, last := None, None, None;
    }

    /** The reading thread may end at any moment, with a result or by an exception. */
    method MayEnd()
      requires Valid()
      modifies this`running, this`slot, this`last
      ensures Valid() && (old(running).None? ==> running.None? && slot == old(slot) && last == old(last))
      ensures running.Some? ==> running == old(running)
    {
      var ends: bool := *;
      if ends && running.Some? {
        var answer: Option<bool> := *;
        var degraded: bool, fails: bool := *, *;
        if !fails {
          slot := Some(Reading(running.value, answer, degraded));
        }
        last, running := slot, None;
      }
    }

    method Busy() returns (busy: bool)
      requires Valid()
      modifies this`running, this`slot, this`last
      ensures Valid() && (busy <==> running.Some?)
      ensures old(running).None? ==> running.None? && slot == old(slot) && last == old(last)
    {
      MayEnd();
      busy := running.Some?;
    }

    /** Refused while the model is not loaded or a reading runs. The slot is left as it is: a result not taken yet would be
        read by the next one who asks, so nobody may submit while somebody owns it. */
    method Submit(client: Client, frame: Frame) returns (accepted: bool)
      requires Valid() && owner.None?
      modifies this`running, this`slot, this`owner, this`job, this`submitted, this`last
      ensures Valid() && last == old(last) && (accepted <==> loaded) && (accepted <==> running.Some?)
      ensures accepted ==> owner == Some(client) && job == Some(Job(old(submitted), frame)) && submitted == old(submitted) + 1
      ensures !accepted ==> running == old(running) && owner.None? && submitted == old(submitted) && job == old(job)
    {
      if !loaded {
        return false;
      }
      var busy := Busy();
      if busy {
        return false;
      }
      running := Some(Job(submitted, frame));
      owner, job := Some(client), running;
      submitted := submitted + 1;
      accepted := true;
    }

    method Take(ghost client: Client) returns (reading: Option<Reading>)
      requires Valid() && owner == Some(client) && running.None?
      modifies this`slot, this`owner
      ensures Valid() && owner.None? && reading == last
      ensures reading.Some? ==> Some(reading.value.job) == old(job)
    {
      reading := slot;
      slot := None;
      owner := None;
    }
  }

  // ----- the cause of a blocked path -----

  datatype Reason = NO_FRAME | STALE_FRAME | MISSION | NOT_LOADED | BUSY | TIMEOUT | WORKER_FAILED | READ

  datatype Blocked = Blocked(frame: Option<Frame>, at: int)

  datatype Waiting = Waiting(ghost call: nat, frame: Frame, since: int, submitted: bool)

  datatype Record = Record(call: nat, frame: Option<Frame>, since: int, at: int, reading: Option<Reading>, reason: Reason)

  /** Why a call is recorded without being asked about, if it is. */
  function Refusal(frame: Option<Frame>, now: int, maxAge: int, mission: bool, loaded: bool, waiting: bool): Option<Reason> {
    if frame.None? then Some(NO_FRAME)
    else if now - frame.value.received > maxAge then Some(STALE_FRAME)
    else if !mission then Some(MISSION)
    else if !loaded then Some(NOT_LOADED)
    else if waiting then Some(BUSY)
    else None
  }

  /** Each reason means what it says, the first that holds is given, and only a call nothing speaks against waits. */
  lemma RefusalIff(frame: Option<Frame>, now: int, maxAge: int, mission: bool, loaded: bool, waiting: bool)
    ensures var why := Refusal(frame, now, maxAge, mission, loaded, waiting);
            var timely := frame.Some? && now <= frame.value.received + maxAge;
            && (why == Some(NO_FRAME) <==> frame.None?)
            && (why == Some(STALE_FRAME) <==> frame.Some? && !timely)
            && (why == Some(MISSION) <==> timely && !mission)
            && (why == Some(NOT_LOADED) <==> timely && mission && !loaded)
            && (why == Some(BUSY) <==> timely && mission && loaded && waiting)
            && (why.None? <==> timely && mission && loaded && !waiting)
  {
  }

  function Times(records: seq<Record>, call: nat): nat {
    if records == [] then 0
    else Times(records[..|records| - 1], call) + if records[|records| - 1].call == call then 1 else 0
  }

  lemma TimesAppend(records: seq<Record>, r: Record, call: nat)
    ensures Times(records + [r], call) == Times(records, call) + if r.call == call then 1 else 0
  {
    assert (records + [r])[..|records|] == records;
  }

  /** Each call is recorded exactly once, or is the one still waiting. */
  ghost predicate OncePerCall(calls: seq<Blocked>, records: seq<Record>, pending: Option<Waiting>) {
    && (pending.Some? ==> pending.value.call < |calls|)
    && (forall c :: 0 <= c < |calls| ==> Times(records, c) == if pending.Some? && pending.value.call == c then 0 else 1)
    && (forall r :: r in records ==> r.call < |calls|)
  }

  /** What a record says is about its own call, and a reading in it is the answer to the question asked for that call. */
  ghost predicate Faithful(calls: seq<Blocked>, r: Record, askedFor: map<nat, nat>) {
    && r.call < |calls| && r.since == calls[r.call].at
    && (r.frame.Some? ==> r.frame == calls[r.call].frame)
    && (r.reading.Some? ==>
          && r.frame == Some(r.reading.value.job.frame)
          && r.reading.value.job.number in askedFor && askedFor[r.reading.value.job.number] == r.call)
  }

  lemma Recorded(calls: seq<Blocked>, records: seq<Record>, p: Waiting, r: Record)
    requires OncePerCall(calls, records, Some(p)) && r.call == p.call
    ensures OncePerCall(calls, records + [r], None)
  {
    forall c | 0 <= c < |calls|
      ensures Times(records + [r], c) == 1
    {
      TimesAppend(records, r, c);
    }
  }

  class PathCause {
    const worker: Worker
    const wait: int
    const maxAge: int
    var pending: Option<Waiting>
    var draining: bool

    ghost var calls: seq<Blocked>
    ghost var records: seq<Record>
    ghost var askedFor: map<nat, nat>   // question number -> call

    predicate Claims()
      reads this
    {
      draining || (pending.Some? && pending.value.submitted)
    }

    /** The client's side of the ownership. */
    ghost predicate Owns()
      reads this, worker
    {
      && (Claims() <==> worker.owner == Some(PATH)) && (draining ==> pending.None? || !pending.value.submitted)
      && (pending.Some? && pending.value.submitted ==>
            && worker.job.Some? && worker.job.value.frame == pending.value.frame
            && worker.job.value.number in askedFor && askedFor[worker.job.value.number] == pending.value.call)
      && (forall n :: n in askedFor ==> n < worker.submitted)
    }

    ghost predicate Kept()
      reads this
    {
      && wait > 0 && maxAge > 0 && OncePerCall(calls, records, pending)
      && (forall i :: 0 <= i < |records| ==> Faithful(calls, records[i], askedFor))
      && (pending.Some? ==> calls[pending.value.call] == Blocked(Some(pending.value.frame), pending.value.since))
    }

    ghost predicate Valid()
      reads this, worker
    {
      worker.Valid() && Owns() && Kept()
    }

    constructor (worker: Worker, wait: int, maxAge: int)
      requires worker.Valid() && worker.owner.None? && wait > 0 && maxAge > 0
      ensures Valid() && this.worker == worker && pending.None? && !draining && calls == [] && records == []
    {
      this.worker, this.wait, this.maxAge := worker, wait, maxAge;
      pending, draining := None, false;
      calls, records, askedFor := [], [], map[];
    }

    predicate IsWaiting()
      reads this
    {
      pending.Some? || draining
    }

    /** `_finish` for the call that was waiting. */
    method Finish(p: Waiting, at: int, reading: Option<Reading>, reason: Reason)
      requires Kept() && pending == Some(p)
      requires reading.Some? ==> reading.value.job.frame == p.frame && reading.value.job.number in askedFor
                                 && askedFor[reading.value.job.number] == p.call
      modifies this`pending, this`records
      ensures Kept() && pending.None?
      ensures records == old(records) + [Record(p.call, Some(p.frame), p.since, at, reading, reason)]
    {
      var r := Record(p.call, Some(p.frame), p.since, at, reading, reason);
      Recorded(calls, records, p, r);
      pending := None;
      records := records + [r];
    }

    /** `blocked`: recorded at once when it cannot be asked about, else waiting. */
    method Report(frame: Option<Frame>, now: int, mission: bool, othersWaiting: bool)
      requires Valid() && (!othersWaiting ==> worker.owner.None? || worker.owner == Some(PATH))
      modifies this
      modifies worker`running, worker`slot, worker`owner, worker`job, worker`submitted, worker`last
      ensures Valid() && calls == old(calls) + [Blocked(frame, now)]
      ensures var why := Refusal(frame, now, maxAge, mission, worker.loaded, old(pending).Some?);
              if why.None? then
                && records == old(records) && frame.Some?
                && pending == Some(Waiting(|old(calls)|, frame.value, now, !old(draining) && !othersWaiting))
              else
                && pending == old(pending)
                && records == old(records) + [Record(|old(calls)|, if why.value == STALE_FRAME then None else frame,
                                                    now, now, None, why.value)]
      ensures old(worker.owner).Some? ==> worker.owner == old(worker.owner)
      ensures worker.owner == old(worker.owner) || worker.owner == Some(PATH)
      ensures worker.owner == old(worker.owner) ==> worker.job == old(worker.job)
    {
      if frame.None? {
        Refuse(frame, None, now, NO_FRAME);
      } else if now - frame.value.received > maxAge {
        Refuse(frame, None, now, STALE_FRAME);
      } else if !mission {
        Refuse(frame, frame, now, MISSION);
      } else if !worker.loaded {
        Refuse(frame, frame, now, NOT_LOADED);
      } else if pending.Some? {
        Refuse(frame, frame, now, BUSY);
      } else {
        Await(frame.value, now, othersWaiting);
      }
    }

    /** A new call with nothing waiting: hold it, and ask about it if the slot is free. */
    method Await(frame: Frame, now: int, othersWaiting: bool)
      requires Valid() && pending.None? && worker.loaded && (!othersWaiting ==> worker.owner.None? || worker.owner == Some(PATH))
      modifies this`pending, this`calls, this`askedFor
      modifies worker`running, worker`slot, worker`owner, worker`job, worker`submitted, worker`last
      ensures Valid() && calls == old(calls) + [Blocked(Some(frame), now)]
      ensures pending == Some(Waiting(|old(calls)|, frame, now, !draining && !othersWaiting))
      ensures old(worker.owner).Some? ==> worker.owner == old(worker.owner)
      ensures worker.owner == old(worker.owner) || worker.owner == Some(PATH)
      ensures worker.owner == old(worker.owner) ==> worker.job == old(worker.job)
    {
      NeverRecorded(records, |calls|);
      pending := Some(Waiting(|calls|, frame, now, false));
      calls := calls + [Blocked(Some(frame), now)];
      assert Kept();
      hide Kept;
      ghost var waiting, asked0 := pending, askedFor;
      var asked := Ask(othersWaiting);
      KeptIfAsked(waiting, asked0);
    }

    /** Asking changes what the waiting call says about itself, nothing that was recorded. */
    lemma KeptIfAsked(waiting: Option<Waiting>, asked0: map<nat, nat>)
      requires wait > 0 && maxAge > 0 && OncePerCall(calls, records, waiting)
      requires forall i :: 0 <= i < |records| ==> Faithful(calls, records[i], asked0)
      requires waiting.Some? ==> calls[waiting.value.call] == Blocked(Some(waiting.value.frame), waiting.value.since)
      requires pending == waiting || (waiting.Some? && pending == Some(waiting.value.(submitted := true)))
      requires forall n :: n in asked0 ==> n in askedFor && askedFor[n] == asked0[n]
      ensures Kept()
    {
      forall i | 0 <= i < |records|
        ensures Faithful(calls, records[i], askedFor)
      {
        assert Faithful(calls, records[i], asked0);
      }
    }

    /** A call that is not asked about. */
    ghost method Refuse(frame: Option<Frame>, shown: Option<Frame>, now: int, reason: Reason)
      requires Valid() && (shown.Some? ==> shown == frame)
      modifies this`calls, this`records
      ensures Valid() && calls == old(calls) + [Blocked(frame, now)]
      ensures records == old(records) + [Record(|old(calls)|, shown, now, now, None, reason)]
    {
      ghost var before := calls;
      calls := calls + [Blocked(frame, now)];
      assert calls[..|before|] == before;
      RecordAtOnce(shown, now, reason);
    }

    ghost method RecordAtOnce(frame: Option<Frame>, now: int, reason: Reason)
      requires |calls| > 0 && Owns() && worker.Valid() && wait > 0 && maxAge > 0
      requires OncePerCall(calls[..|calls| - 1], records, pending)
      requires forall i :: 0 <= i < |records| ==> Faithful(calls[..|calls| - 1], records[i], askedFor)
      requires pending.Some? ==> calls[pending.value.call] == Blocked(Some(pending.value.frame), pending.value.since)
      requires calls[|calls| - 1].at == now && (frame.Some? ==> frame == calls[|calls| - 1].frame)
      modifies this`records
      ensures Valid() && records == old(records) + [Record(|calls| - 1, frame, now, now, None, reason)]
    {
      var call := |calls| - 1;
      NeverRecorded(records, call);
      forall c | 0 <= c < |calls|
        ensures Times(records + [Record(call, frame, now, now, None, reason)], c)
                == if pending.Some? && pending.value.call == c then 0 else 1
      {
        TimesAppend(records, Record(call, frame, now, now, None, reason), c);
      }
      records := records + [Record(call, frame, now, now, None, reason)];
    }

    /** `_submit`: not while an old answer is still to be drained, nor while another client's reading is out. */
    method Ask(othersWaiting: bool) returns (asked: bool)
      requires worker.Valid() && Owns() && pending.Some? && !pending.value.submitted
      requires !othersWaiting ==> worker.owner.None? || worker.owner == Some(PATH)
      modifies this`pending, this`askedFor
      modifies worker`running, worker`slot, worker`owner, worker`job, worker`submitted, worker`last
      ensures worker.Valid() && Owns()
      ensures asked <==> !draining && !othersWaiting && worker.loaded
      ensures asked ==> old(worker.owner).None? && pending == Some(old(pending).value.(submitted := true))
      ensures !asked ==> worker.running == old(worker.running) && pending == old(pending) && worker.owner == old(worker.owner) && worker.job == old(worker.job)
      ensures forall n :: n in old(askedFor) ==> n in askedFor && askedFor[n] == old(askedFor)[n]
    {
      if draining || othersWaiting {
        return false;
      }
      asked := worker.Submit(PATH, pending.value.frame);
      if asked {
        pending := Some(pending.value.(submitted := true));
        askedFor := askedFor[worker.job.value.number := pending.value.call];
      }
    }

    /** Every tick: drain a late answer, ask again, collect the answer, or give up after the wait. */
    method Poll(now: int, othersWaiting: bool)
      requires Valid() && (!othersWaiting ==> worker.owner.None? || worker.owner == Some(PATH))
      modifies this
      modifies worker`running, worker`slot, worker`owner, worker`job, worker`submitted, worker`last
      ensures Valid() && calls == old(calls)
      ensures if old(pending).Some? then Settles(old(pending).value, now, old(records), othersWaiting)
              else pending.None? && records == old(records)
      ensures draining ==> worker.running.Some?
      ensures worker.owner == old(worker.owner) || (worker.owner.None? && old(worker.owner) == Some(PATH))
           || (worker.owner == Some(PATH) && (old(worker.owner).None? || old(draining)))
      ensures worker.owner == old(worker.owner) != Some(PATH) ==> worker.job == old(worker.job)
    {
      Drain();
      if pending.None? {
        return;
      }
      var p := pending.value;
      if !p.submitted {
        var asked := Ask(othersWaiting);
        if asked {
          return;
        }
      }
      Collect(p, now, othersWaiting);
    }

    /** What a poll makes of the waiting call. While its reading runs, or it may not ask: nothing yet, or at the end of the wait
        one record with TIMEOUT or BUSY. If it may ask, it asks. Once its reading has ended: one record with what that left. */
    ghost predicate Settles(p: Waiting, now: int, before: seq<Record>, othersWaiting: bool)
      reads this, worker
    {
      if p.submitted && worker.running.None? then
        && pending.None?
        && records == before + [Record(p.call, Some(p.frame), p.since, now, worker.last,
                                       if worker.last.Some? then READ else WORKER_FAILED)]
      else if !p.submitted && (pending == Some(p.(submitted := true))) then
        records == before && !othersWaiting && worker.loaded
      else
        && (p.submitted || draining || othersWaiting || !worker.loaded)
        && if now - p.since < wait then records == before && pending == Some(p)
           else
             && pending.None? && (p.submitted ==> draining)
             && records == before + [Record(p.call, Some(p.frame), p.since, now, None, if p.submitted then TIMEOUT else BUSY)]
    }

    method Drain()
      requires Valid()
      modifies this`draining
      modifies worker`running, worker`slot, worker`owner, worker`job, worker`submitted, worker`last
      ensures Valid() && (draining ==> old(draining) && worker.running.Some?)
      ensures worker.owner == old(worker.owner) || (worker.owner.None? && old(worker.owner) == Some(PATH) && old(draining))
      ensures worker.owner == old(worker.owner) ==> worker.job == old(worker.job)
      ensures old(worker.owner) == Some(PATH) && !old(draining) ==> worker.owner == Some(PATH)
    {
      if draining {
        var busy := worker.Busy();
        if !busy {
          draining := false;
          var late := worker.Take(PATH);
        }
      }
    }

    method Collect(p: Waiting, now: int, ghost othersWaiting: bool)
      requires Valid() && pending == Some(p) && (draining ==> worker.running.Some?)
      requires p.submitted || draining || othersWaiting || !worker.loaded
      modifies this`pending, this`draining, this`records
      modifies worker`running, worker`slot, worker`owner, worker`job, worker`submitted, worker`last
      ensures Valid() && Settles(p, now, old(records), othersWaiting) && (draining ==> worker.running.Some?)
      ensures worker.owner == old(worker.owner) || (worker.owner.None? && old(worker.owner) == Some(PATH))
      ensures worker.owner == old(worker.owner) ==> worker.job == old(worker.job)
    {
      if p.submitted {
        var busy := worker.Busy();
        if !busy {
          ghost var job := worker.job;
          var reading := worker.Take(PATH);
          Finish(p, now, reading, if reading.Some? then READ else WORKER_FAILED);
          return;
        }
      }
      if now - p.since >= wait {
        if p.submitted {
          draining := true;
        }
        Finish(p, now, None, if p.submitted then TIMEOUT else BUSY);
      }
    }
  }

  lemma {:induction false} NeverRecorded(records: seq<Record>, call: nat)
    requires forall r :: r in records ==> r.call < call
    ensures Times(records, call) == 0
  {
    if records != [] {
      NeverRecorded(records[..|records| - 1], call);
    }
  }

  // ----- the fall monitor -----

  datatype Asked = Asked(at: int, frame: Frame, during: bool)

  /** `value` is what the report says the reading found; None for none in time. */
  datatype Report = Report(frame: Frame, reading: Option<Reading>, late: bool)

  class FallMonitor {
    const worker: Worker
    const budget: int
    var pending: Option<Asked>
    var crossPending: Option<(int, Frame)>
    var crossReported: bool
    var ruleSeen: bool
    var ruleWaitSince: Option<int>
    var ruleWaitFrame: Option<Frame>

    ghost var read: seq<(Frame, Reading)>   // readings used as answers, with the frame they were asked for
    ghost var reports: seq<Report>          // reports on submitted cross-checks
    ghost var crossAsked: nat               // cross-checks submitted

    ghost predicate Owns()
      reads this, worker
    {
      && (pending.Some? <==> worker.owner == Some(FALL)) && (crossPending.Some? <==> worker.owner == Some(CROSS))
      && (pending.Some? ==> worker.job.Some? && worker.job.value.frame == pending.value.frame)
      && (crossPending.Some? ==> worker.job.Some? && worker.job.value.frame == crossPending.value.1)
    }

    /** Answers belong to their frames, and every submitted cross-check has one report, or none yet. */
    ghost predicate Kept()
      reads this
    {
      && (forall i :: 0 <= i < |read| ==> read[i].1.job.frame == read[i].0)
      && (forall i :: 0 <= i < |reports| && reports[i].reading.Some? ==>
            reports[i].reading.value.job.frame == reports[i].frame && !reports[i].late)
      && |reports| + (if crossPending.Some? && !crossReported then 1 else 0) == crossAsked
      && (ruleWaitSince.Some? <==> ruleWaitFrame.Some?)
    }

    ghost predicate Valid()
      reads this, worker
    {
      worker.Valid() && Owns() && Kept()
    }

    constructor (worker: Worker, budget: int)
      requires worker.Valid() && worker.owner.None?
      ensures Valid() && this.worker == worker && pending.None? && crossPending.None?
    {
      this.worker, this.budget := worker, budget;
      pending, crossPending, crossReported, ruleSeen := None, None, false, false;
      ruleWaitSince, ruleWaitFrame := None, None;
      read, reports, crossAsked := [], [], 0;
    }

    predicate IsWaiting()
      reads this
    {
      pending.Some? || crossPending.Some?
    }

    /** One more report, about `frame`; an answer is in it only if it came in time. */
    ghost predicate Reported(after: seq<Report>, before: seq<Report>, asked: int, frame: Frame, now: int) {
      && |after| == |before| + 1 && after[..|before|] == before && after[|before|].frame == frame
      && (after[|before|].reading.Some? ==> (now - asked < budget || budget > 0 >= now - asked)
                                            && !after[|before|].reading.value.degraded)
      && (after[|before|].late ==> now - asked >= budget || 0 >= budget)
    }

    /** What is reported about a cross-check whose reading has ended. */
    function Verdict(frame: Frame, reading: Option<Reading>, elapsed: int): Report {
      if elapsed >= budget || reading.None? || reading.value.degraded then Report(frame, None, elapsed >= budget)
      else Report(frame, reading, false)
    }

    lemma VerdictIff(frame: Frame, reading: Option<Reading>, elapsed: int)
      ensures var report := Verdict(frame, reading, elapsed);
              && report.frame == frame && (report.late <==> elapsed >= budget)
              && (report.reading.Some? <==> elapsed < budget && reading.Some? && !reading.value.degraded)
              && (report.reading.Some? ==> report.reading == reading)
    {
    }

    /** What taking the cross-check comes to: nothing without one; while it runs, a late one is reported once; when it has ended,
        what it left is reported, unless that was done. */
    ghost predicate CrossTaken(pending: Option<(int, Frame)>, reported: bool, before: seq<Report>, now: int)
      reads this, worker
    {
      if pending.None? then crossPending.None? && reports == before && crossReported == reported
      else
        var (asked, frame) := pending.value;
        var elapsed := if now > asked then now - asked else 0;
        if worker.running.Some? then
          && crossPending == pending && crossReported == (reported || elapsed >= budget)
          && reports == before + if elapsed >= budget && !reported then [Report(frame, None, true)] else []
        else
          && crossPending.None? && crossReported == reported
          && reports == before + if reported then [] else [Verdict(frame, worker.last, elapsed)]
    }

    /** `take_cross_reading`: the slot stays owned until the late answer has been thrown away. */
    method TakeCross(now: int)
      requires Valid()
      modifies this`crossPending, this`crossReported, this`reports
      modifies worker`running, worker`slot, worker`owner, worker`job, worker`submitted, worker`last
      ensures Valid() && (crossPending == old(crossPending) || crossPending.None?)
      ensures CrossTaken(old(crossPending), old(crossReported), old(reports), now)
      ensures reports == old(reports)
           || (old(crossPending).Some? && !old(crossReported)
               && Reported(reports, old(reports), old(crossPending).value.0, old(crossPending).value.1, now))
      ensures worker.owner == old(worker.owner) || (worker.owner.None? && old(worker.owner) == Some(CROSS))
      ensures worker.owner == old(worker.owner) ==> worker.job == old(worker.job)
      ensures worker.submitted >= old(worker.submitted)
    {
      if crossPending.None? {
        return;
      }
      var (asked, frame) := crossPending.value;
      var elapsed := if now > asked then now - asked else 0;
      var busy := worker.Busy();
      if busy {
        if elapsed >= budget && !crossReported {
          reports := reports + [Report(frame, None, true)];
          crossReported := true;
        }
        return;
      }
      var reading := worker.Take(CROSS);
      crossPending := None;
      if crossReported {
        return;
      }
      reports := reports + [Verdict(frame, reading, elapsed)];
    }

    /** `watch`, as far as the slot goes: a late cross-check is reported, and a rule confirmation that could not be asked about
        within the budget is given up. */
    method Watch(now: int)
      requires Valid()
      modifies this`crossPending, this`crossReported, this`reports, this`ruleSeen
      modifies worker`running, worker`slot, worker`owner, worker`job, worker`submitted, worker`last
      ensures Valid() && old(reports) <= reports && |reports| <= |old(reports)| + 1
      ensures CrossTaken(old(crossPending), old(crossReported), old(reports), now)
      ensures ruleSeen <==> old(ruleSeen) || (ruleWaitSince.Some? && now - ruleWaitSince.value >= budget)
      ensures worker.owner == old(worker.owner) || (worker.owner.None? && old(worker.owner) == Some(CROSS))
      ensures worker.owner == old(worker.owner) ==> worker.job == old(worker.job)
      ensures worker.submitted >= old(worker.submitted)
    {
      TakeCross(now);
      if ruleWaitSince.Some? && !ruleSeen && ruleWaitFrame.Some? {
        if now - ruleWaitSince.value >= budget {
          ruleSeen := true;
        }
      }
    }

    /** `take_reading` */
    method TakeReading(now: int)
      requires Valid()
      modifies this`pending, this`crossPending, this`crossReported, this`reports, this`read
      modifies worker`running, worker`slot, worker`owner, worker`job, worker`submitted, worker`last
      ensures Valid() && old(read) <= read && old(reports) <= reports
      ensures old(crossPending).Some? ==> CrossTaken(old(crossPending), old(crossReported), old(reports), now)
      ensures old(crossPending).None? ==> crossPending.None? && reports == old(reports)
      ensures if old(pending).None? || worker.running.Some? then pending == old(pending) && read == old(read)
              else pending.None?
                   && read == old(read) + if worker.last.Some? then [(old(pending).value.frame, worker.last.value)] else []
      ensures worker.owner == old(worker.owner) || (worker.owner.None? && old(worker.owner) in {Some(FALL), Some(CROSS)})
      ensures worker.owner == old(worker.owner) ==> worker.job == old(worker.job)
      ensures worker.submitted >= old(worker.submitted)
    {
      TakeCross(now);
      if crossPending.Some? || pending.None? {
        return;
      }
      var busy := worker.Busy();
      if busy {
        return;
      }
      var asked := pending.value;
      pending := None;
      var reading := worker.Take(FALL);
      if reading.Some? {
        read := read + [(asked.frame, reading.value)];
      }
    }

    /** `ask`: `rule` is a fall the rule confirmed in this very frame; `wants` says whether it is time for a routine question. */
    method Ask(frame: Frame, now: int, rule: bool, wants: bool, suspected: bool, othersWaiting: bool)
      requires Valid() && (!othersWaiting ==> worker.owner in {None, Some(FALL), Some(CROSS)})
      modifies this
      modifies worker`running, worker`slot, worker`owner, worker`job, worker`submitted, worker`last
      ensures Valid() && old(read) == read && old(reports) == reports
      ensures if !rule && old(crossPending).None? && wants && old(pending).None? && !othersWaiting && worker.loaded then
                pending == Some(Asked(now, frame, suspected))
              else pending == old(pending)
      ensures rule ==> CrossAsked(old(ruleSeen), old(crossPending), old(ruleWaitSince), old(ruleWaitFrame), frame, now, othersWaiting)
      ensures !rule ==> crossPending == old(crossPending)
      ensures !rule && crossPending.None? ==> !ruleSeen && ruleWaitSince.None? && ruleWaitFrame.None?
      ensures worker.owner == old(worker.owner) || (old(worker.owner).None? && worker.owner in {Some(FALL), Some(CROSS)})
      ensures worker.owner == old(worker.owner) ==> worker.job == old(worker.job)
      ensures worker.submitted >= old(worker.submitted)
    {
      if rule {
        AskCross(frame, now, othersWaiting);
        return;
      }
      if crossPending.Some? {
        return;
      }
      ruleSeen, ruleWaitSince, ruleWaitFrame := false, None, None;
      if !wants || pending.Some? || othersWaiting {
        return;
      }
      var accepted := worker.Submit(FALL, frame);
      if accepted {
        pending := Some(Asked(now, frame, suspected));
      }
    }

    /** What a rule confirmation comes to: nothing more once it was seen; else it waits from its first frame on, is given up at
        the end of the budget, and is asked about - that first frame - as soon as the slot is free. */
    ghost predicate CrossAsked(seen: bool, cross: Option<(int, Frame)>, since: Option<int>, first: Option<Frame>, frame: Frame,
                               now: int, othersWaiting: bool)
      reads this, worker
    {
      if seen || cross.Some? then ruleSeen == seen && crossPending == cross && ruleWaitSince == since && ruleWaitFrame == first
      else
        && ruleWaitSince == Some(since.GetOr(now)) && ruleWaitFrame == Some(first.GetOr(frame))
        && if now - since.GetOr(now) >= budget then ruleSeen && crossPending.None?
           else if pending.Some? || othersWaiting || !worker.loaded then !ruleSeen && crossPending.None?
           else ruleSeen && crossPending == Some((now, first.GetOr(frame)))
    }

    /** `_ask_cross`: the frame in which the rule first confirmed, not the present one, is what is asked about. */
    method AskCross(frame: Frame, now: int, othersWaiting: bool)
      requires Valid() && (!othersWaiting ==> worker.owner in {None, Some(FALL), Some(CROSS)})
      modifies this
      modifies worker`running, worker`slot, worker`owner, worker`job, worker`submitted, worker`last
      ensures Valid() && old(read) == read && old(reports) == reports && pending == old(pending)
      ensures CrossAsked(old(ruleSeen), old(crossPending), old(ruleWaitSince), old(ruleWaitFrame), frame, now, othersWaiting)
      ensures crossPending != old(crossPending) ==> !crossReported
      ensures worker.owner == old(worker.owner) || (old(worker.owner).None? && worker.owner == Some(CROSS))
      ensures worker.owner == old(worker.owner) ==> worker.job == old(worker.job)
      ensures worker.submitted >= old(worker.submitted)
    {
      if ruleSeen || crossPending.Some? {
        return;
      }
      if ruleWaitSince.None? {
        ruleWaitSince, ruleWaitFrame := Some(now), Some(frame);
      }
      if now - ruleWaitSince.value >= budget {
        ruleSeen := true;
        return;
      }
      if pending.Some? || othersWaiting {
        return;
      }
      var accepted := worker.Submit(CROSS, ruleWaitFrame.value);
      if accepted {
        crossPending := Some((now, ruleWaitFrame.value));
        crossReported := false;
        ruleSeen := true;
        crossAsked := crossAsked + 1;
      }
    }
  }

  // ----- the zone inspector -----

  class ZoneInspector {
    const worker: Worker
    var pending: Option<(int, Frame)>   // the zone asked about, and its frame
    var asked: bool

    ghost var read: seq<(int, Frame, Reading)>

    ghost predicate Valid()
      reads this, worker
    {
      && worker.Valid() && (pending.Some? <==> worker.owner == Some(ZONE))
      && (pending.Some? ==> worker.job.Some? && worker.job.value.frame == pending.value.1)
      && (forall i :: 0 <= i < |read| ==> read[i].2.job.frame == read[i].1)
    }

    constructor (worker: Worker)
      requires worker.Valid() && worker.owner.None?
      ensures Valid() && this.worker == worker && pending.None?
    {
      this.worker := worker;
      pending, asked, read := None, false, [];
    }

    /** `_read_scene` */
    method ReadScene(zone: int, frame: Frame, othersWaiting: bool)
      requires Valid() && (!othersWaiting ==> worker.owner in {None, Some(ZONE)})
      modifies this`pending, this`asked
      modifies worker`running, worker`slot, worker`owner, worker`job, worker`submitted, worker`last
      ensures Valid() && asked == (old(asked) || !othersWaiting)
      ensures pending == if old(pending).None? && !old(asked) && !othersWaiting && worker.loaded then Some((zone, frame))
                         else old(pending)
      ensures worker.owner == old(worker.owner) || (old(worker.owner).None? && worker.owner == Some(ZONE))
      ensures worker.owner == old(worker.owner) ==> worker.job == old(worker.job)
      ensures worker.submitted >= old(worker.submitted)
    {
      if asked || othersWaiting {
        return;
      }
      asked := true;
      if pending.None? {
        var accepted := worker.Submit(ZONE, frame);
        if accepted {
          pending := Some((zone, frame));
        }
      }
    }

    /** `_take_reading`; `again` says whether a first sighting is asked about a second time. */
    method TakeReading(frame: Frame, again: bool) returns (ended: bool)
      requires Valid()
      modifies this`pending, this`read
      modifies worker`running, worker`slot, worker`owner, worker`job, worker`submitted, worker`last
      ensures Valid() && old(read) <= read
      ensures ended ==> old(pending).Some?
      ensures !ended ==> pending == old(pending) && read == old(read) && (pending.Some? ==> worker.running.Some?)
      ensures ended ==> read == old(read) + if worker.last.None? then []
                                            else [(old(pending).value.0, old(pending).value.1, worker.last.value)]
      ensures ended ==> pending == if worker.last.Some? && again && worker.loaded then Some((old(pending).value.0, frame)) else None
      ensures worker.owner == old(worker.owner) || (old(worker.owner) == Some(ZONE) && worker.owner.None?)
      ensures worker.owner == old(worker.owner) != Some(ZONE) ==> worker.job == old(worker.job)
      ensures worker.submitted >= old(worker.submitted)
    {
      if pending.None? {
        return false;
      }
      var busy := worker.Busy();
      if busy {
        return false;
      }
      var (zone, about) := pending.value;
      pending := None;
      var reading := worker.Take(ZONE);
      if reading.None? {
        return true;
      }
      read := read + [(zone, about, reading.value)];
      if again {
        var accepted := worker.Submit(ZONE, frame);
        if accepted {
          pending := Some((zone, frame));
        }
      }
      ended := true;
    }

    /** A new visit may ask again. */
    method NewVisit()
      requires Valid()
      modifies this`asked
      ensures Valid() && !asked
    {
      asked := false;
    }
  }

  // ----- the loop -----

  lemma FourClients(owner: Option<Client>)
    ensures owner == None || owner == Some(PATH) || owner == Some(FALL) || owner == Some(CROSS) || owner == Some(ZONE)
  {
    if owner.Some? {
      match owner.value
      case PATH =>
      case FALL =>
      case CROSS =>
      case ZONE =>
    }
  }

  datatype Act =
    | LoadModel(loaded: bool)
    | BlockedPath(seen: Option<Frame>, mission: bool)
    | PollPath
    | WatchFall
    | TakeFall
    | AskFall(frame: Frame, rule: bool, wants: bool, suspected: bool)
    | EnterZone
    | TakeZone(frame: Frame, again: bool)
    | AskZone(zone: int, frame: Frame)

  /** The blocked paths among the acts, in order. */
  function BlockedIn(acts: seq<(Act, int)>): seq<Blocked> {
    if acts == [] then []
    else
      var (act, now) := acts[|acts| - 1];
      BlockedIn(acts[..|acts| - 1]) + if act.BlockedPath? then [Blocked(act.seen, now)] else []
  }

  class Loop {
    const worker: Worker
    const path: PathCause
    const fall: FallMonitor
    const zone: ZoneInspector

    /** At most one client owns the slot, and it is the one whose books say so. */
    ghost predicate Valid()
      reads worker, path, fall, zone
    {
      && path.worker == worker && fall.worker == worker && zone.worker == worker
      && path.Valid() && fall.Valid() && zone.Valid()
    }

    constructor (wait: int, maxAge: int, budget: int)
      requires wait > 0 && maxAge > 0
      ensures Valid() && fresh(worker) && fresh(path) && fresh(fall) && fresh(zone) && path.calls == []
    {
      var w := new Worker();
      worker := w;
      path := new PathCause(w, wait, maxAge);
      fall := new FallMonitor(w, budget);
      zone := new ZoneInspector(w);
    }

    predicate PathFree()
      reads this, fall, zone
    {
      !fall.IsWaiting() && zone.pending.None?
    }

    method PathStep(act: Act, now: int)
      requires Valid() && (act.BlockedPath? || act.PollPath?)
      modifies path
      modifies worker`running, worker`slot, worker`owner, worker`job, worker`submitted, worker`last
      ensures Valid() && old(path.records) <= path.records
      ensures path.calls == old(path.calls) + if act.BlockedPath? then [Blocked(act.seen, now)] else []
      ensures act.BlockedPath? && Refusal(act.seen, now, path.maxAge, act.mission, worker.loaded, old(path.pending).Some?).None? ==>
                path.pending == Some(Waiting(|old(path.calls)|, act.seen.value, now, !old(path.draining) && old(PathFree())))
      ensures act.PollPath? && old(path.pending).Some? ==>
                path.Settles(old(path.pending).value, now, old(path.records), !old(PathFree()))
    {
      hide PathCause.Kept, FallMonitor.Kept, PathCause.Settles, FallMonitor.CrossTaken, FallMonitor.CrossAsked, Refusal;
      FourClients(worker.owner);
      if act.BlockedPath? {
        path.Report(act.seen, now, act.mission, fall.IsWaiting() || zone.pending.Some?);
      } else {
        path.Poll(now, fall.IsWaiting() || zone.pending.Some?);
      }
    }

    method FallStep(act: Act, now: int)
      requires Valid() && (act.WatchFall? || act.TakeFall? || act.AskFall?)
      modifies fall
      modifies worker`running, worker`slot, worker`owner, worker`job, worker`submitted, worker`last
      ensures Valid()
      ensures act.WatchFall? || (act.TakeFall? && old(fall.crossPending).Some?) ==>
                fall.CrossTaken(old(fall.crossPending), old(fall.crossReported), old(fall.reports), now)
      ensures act.TakeFall? && old(fall.pending).Some? && worker.running.None? ==>
                && fall.pending.None?
                && fall.read == old(fall.read) + if worker.last.Some? then [(old(fall.pending).value.frame, worker.last.value)] else []
      ensures act.AskFall? && !act.rule && act.wants && !old(fall.IsWaiting()) && worker.loaded
              && zone.pending.None? && !path.IsWaiting() ==>
                fall.pending == Some(Asked(now, act.frame, act.suspected))
      ensures act.AskFall? && act.rule ==>
                fall.CrossAsked(old(fall.ruleSeen), old(fall.crossPending), old(fall.ruleWaitSince), old(fall.ruleWaitFrame),
                                act.frame, now, zone.pending.Some? || path.IsWaiting())
    {
      hide PathCause.Kept, FallMonitor.Kept, PathCause.Settles, FallMonitor.CrossTaken, FallMonitor.CrossAsked, Refusal;
      FourClients(worker.owner);
      if act.WatchFall? {
        fall.Watch(now);
      } else if act.TakeFall? {
        fall.TakeReading(now);
      } else {
        fall.Ask(act.frame, now, act.rule, act.wants, act.suspected, zone.pending.Some? || path.IsWaiting());
      }
    }

    method ZoneStep(act: Act, now: int)
      requires Valid() && (act.EnterZone? || act.TakeZone? || act.AskZone?)
      modifies zone
      modifies worker`running, worker`slot, worker`owner, worker`job, worker`submitted, worker`last
      ensures Valid()
      ensures act.EnterZone? ==> !zone.asked
      ensures act.AskZone? && !old(zone.asked) && old(zone.pending).None? && worker.loaded
              && !fall.IsWaiting() && !path.IsWaiting() ==>
                zone.pending == Some((act.zone, act.frame))
      ensures act.TakeZone? && old(zone.pending).Some? ==>
                || (zone.pending == old(zone.pending) && zone.read == old(zone.read) && worker.running.Some?)
                || zone.read == old(zone.read) + if worker.last.None? then []
                                                 else [(old(zone.pending).value.0, old(zone.pending).value.1, worker.last.value)]
    {
      hide PathCause.Kept, FallMonitor.Kept, PathCause.Settles, FallMonitor.CrossTaken, FallMonitor.CrossAsked, Refusal;
      FourClients(worker.owner);
      if act.EnterZone? {
        zone.NewVisit();
      } else if act.TakeZone? {
        var ended := zone.TakeReading(act.frame, act.again);
      } else {
        zone.ReadScene(act.zone, act.frame, fall.IsWaiting() || path.IsWaiting());
      }
    }

    /** One step of the loop, at any time and in any order; the guards are the runtime's wiring. */
    method Step(act: Act, now: int)
      requires Valid()
      modifies worker, path, fall, zone
      ensures Valid() && old(path.records) <= path.records
      ensures path.calls == old(path.calls) + if act.BlockedPath? then [Blocked(act.seen, now)] else []
      ensures act.LoadModel? ==> worker.loaded == act.loaded
      ensures !act.LoadModel? ==> worker.loaded == old(worker.loaded)
      ensures act.BlockedPath? && Refusal(act.seen, now, path.maxAge, act.mission, worker.loaded, old(path.pending).Some?).None? ==>
                path.pending == Some(Waiting(|old(path.calls)|, act.seen.value, now, !old(path.draining) && old(PathFree())))
      ensures act.PollPath? && old(path.pending).Some? ==>
                path.Settles(old(path.pending).value, now, old(path.records), !old(PathFree()))
      ensures act.WatchFall? || (act.TakeFall? && old(fall.crossPending).Some?) ==>
                fall.CrossTaken(old(fall.crossPending), old(fall.crossReported), old(fall.reports), now)
      ensures act.TakeFall? && old(fall.pending).Some? && worker.running.None? ==>
                && fall.pending.None?
                && fall.read == old(fall.read) + if worker.last.Some? then [(old(fall.pending).value.frame, worker.last.value)] else []
      ensures act.AskFall? && !act.rule && act.wants && !old(fall.IsWaiting()) && worker.loaded
              && old(zone.pending).None? && !old(path.IsWaiting()) ==>
                fall.pending == Some(Asked(now, act.frame, act.suspected))
      ensures act.AskFall? && act.rule ==>
                fall.CrossAsked(old(fall.ruleSeen), old(fall.crossPending), old(fall.ruleWaitSince), old(fall.ruleWaitFrame),
                                act.frame, now, old(zone.pending.Some? || path.IsWaiting()))
      ensures act.EnterZone? ==> !zone.asked
      ensures act.AskZone? && !old(zone.asked) && old(zone.pending).None? && worker.loaded
              && !old(fall.IsWaiting()) && !old(path.IsWaiting()) ==>
                zone.pending == Some((act.zone, act.frame))
      ensures act.TakeZone? && old(zone.pending).Some? ==>
                || (zone.pending == old(zone.pending) && zone.read == old(zone.read) && worker.running.Some?)
                || zone.read == old(zone.read) + if worker.last.None? then []
                                                 else [(old(zone.pending).value.0, old(zone.pending).value.1, worker.last.value)]
    {
      hide PathCause.Valid, FallMonitor.Valid, ZoneInspector.Valid, PathCause.Settles, FallMonitor.CrossTaken,
        FallMonitor.CrossAsked, Refusal;
      match act
      case LoadModel(loaded) => LoadTheModel(loaded);
      case BlockedPath(_, _) => PathStep(act, now);
      case PollPath => PathStep(act, now);
      case WatchFall => FallStep(act, now);
      case TakeFall => FallStep(act, now);
      case AskFall(_, _, _, _) => FallStep(act, now);
      case EnterZone => ZoneStep(act, now);
      case TakeZone(_, _) => ZoneStep(act, now);
      case AskZone(_, _) => ZoneStep(act, now);
    }

    /** The loading thread is done, or the model is gone. */
    method LoadTheModel(loaded: bool)
      requires Valid()
      modifies worker`loaded
      ensures Valid() && worker.loaded == loaded
    {
      worker.loaded := loaded;
    }
  }

  /** In every run: no two clients ever own the slot, each blocked path is recorded once, and every answer used anywhere is
      the answer to the question its user asked. */
  method Run(acts: seq<(Act, int)>, wait: int, maxAge: int, budget: int) returns (loop: Loop)
    requires wait > 0 && maxAge > 0
    ensures loop.path.calls == BlockedIn(acts)
    ensures OncePerCall(loop.path.calls, loop.path.records, loop.path.pending)
    ensures forall i :: 0 <= i < |loop.path.records| ==> Faithful(loop.path.calls, loop.path.records[i], loop.path.askedFor)
    ensures forall i :: 0 <= i < |loop.fall.read| ==> loop.fall.read[i].1.job.frame == loop.fall.read[i].0
    ensures forall i :: 0 <= i < |loop.zone.read| ==> loop.zone.read[i].2.job.frame == loop.zone.read[i].1
    ensures forall i :: 0 <= i < |loop.fall.reports| && loop.fall.reports[i].reading.Some? ==>
              loop.fall.reports[i].reading.value.job.frame == loop.fall.reports[i].frame && !loop.fall.reports[i].late
    ensures |loop.fall.reports| + (if loop.fall.crossPending.Some? && !loop.fall.crossReported then 1 else 0)
              == loop.fall.crossAsked
    ensures !(loop.path.Claims() && loop.fall.IsWaiting()) && !(loop.path.Claims() && loop.zone.pending.Some?)
    ensures !(loop.fall.IsWaiting() && loop.zone.pending.Some?)
    ensures !(loop.fall.pending.Some? && loop.fall.crossPending.Some?)
  {
    loop := new Loop(wait, maxAge, budget);
    assert acts[..0] == [];
    for i := 0 to |acts|
      invariant loop.Valid() && fresh(loop) && fresh(loop.worker) && fresh(loop.path) && fresh(loop.fall) && fresh(loop.zone)
      invariant loop.path.calls == BlockedIn(acts[..i])
    {
      assert acts[..i + 1][..i] == acts[..i];
      loop.Step(acts[i].0, acts[i].1);
    }
    assert acts[..|acts|] == acts;
  }
}
