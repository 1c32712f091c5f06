/** Each of the two machines that the runtime couples makes a run of its own: whatever is proved of its runs holds inside the
    runtime. */
module Projections {
  import opened Optional
  import opened Events
  import opened Runtime
  import Commander
  import Escalation
  import Fsm

  /** What a step comes to for the level, and for the state machine with the alarm guard each act finds. */
  datatype Part = Part(ops: seq<Escalation.Op>, acts: seq<(Fsm.Act, bool)>)

  const NOTHING := Part([], [])

  function Join(a: Part, b: Part): Part {
    Part(a.ops + b.ops, a.acts + b.acts)
  }

  /** An admitted event reaches the state machine, and the level is told whether it was accepted. */
  function OfEvent(m: Machine, event: Event, now: int, setup: Setup): Part {
    if !Admitted(m, event, setup) then NOTHING
    else
      var guarded := Holding(m.axis, setup);
      var accepted := Fsm.Told(m.watch, event, guarded, Some(now)).state != m.watch.state;
      Part([Escalation.Note(event, accepted, now)], [(Fsm.Act.Event(event, Some(now)), guarded)])
  }

  function OfReport(m: Machine, latched: Option<bool>, now: int, setup: Setup): Part {
    var heard := Part([], [(Fsm.Heard(now), false), (Fsm.Latch(latched), false)]);
    var m1 := m.(watch := m.watch.(lastTelemetry := Some(now), robotLatched := latched));
    if m.resetPending && latched == Some(false) && m.watch.state == Fsm.FAILSAFE then
      Join(heard, OfEvent(m1, RESET_CONFIRMED, now, setup))
    else heard
  }

  /** A confirmation at L3 releases the level, settles what the alarm was about, and resumes if the alarm held the robot. */
  function OfConfirmation(m: Machine, zone: bool, fall: bool, now: int, setup: Setup): Part {
    if m.axis.level != Escalation.L3 then NOTHING
    else
      var released := m.(axis := Escalation.AlarmConfirmed(m.axis, now));
      var (settling, settled) := Settling(released, zone, fall, now, setup);
      Join(Join(Part([Escalation.ConfirmAlarm(now)], []), settling),
           if Holding(m.axis, setup) then OfEvent(settled, ALARM_CONFIRMED, now, setup) else NOTHING)
  }

  function Settling(m: Machine, zone: bool, fall: bool, now: int, setup: Setup): (Part, Machine) {
    if zone then (OfEvent(m, ZONE_ALARM_CONFIRMED, now, setup), Applied(m, ZONE_ALARM_CONFIRMED, now, setup))
    else if fall then
      var resolved := Applied(m, FALL_RESOLVED, now, setup);
      (Join(OfEvent(m, FALL_RESOLVED, now, setup), Part([Escalation.Fall(false, now)], [])),
       resolved.(axis := Escalation.FallNoted(resolved.axis, false, now)))
    else (NOTHING, m)
  }

  /** A tick of the behaviour is one of the state machine, and a transition it made is told to the level as accepted. */
  function OfTick(m: Machine, ends: bool, now: int, setup: Setup): Part {
    var guarded := Holding(m.axis, setup);
    var watch := Fsm.Ticked(m.watch, guarded, now, ends, setup.limits);
    Part(if watch.state != m.watch.state && watch.trigger.Some? then [Escalation.Note(watch.trigger.value, true, now)] else [],
         [(Fsm.Act.Tick(now, ends), guarded)])
  }

  function PartOf(m: Machine, step: Step, setup: Setup): Part {
    match step
    case Event(event, now) => OfEvent(m, event, now, setup)
    case Report(latched, now) => OfReport(m, latched, now, setup)
    case Ack(latched, now) => if latched.None? then Part([], [(Fsm.Heard(now), false)]) else OfReport(m, latched, now, setup)
    case Person(present, seen, now) => Part([Escalation.Op.Person(present, seen, now)], [])
    case Fall(active, now) => Part([Escalation.Op.Fall(active, now)], [])
    case Authenticate(now) => Part([Escalation.Op.Authenticate(now)], [])
    case AuthenticationLost => Part([Escalation.Op.AuthenticationLost], [])
    case Settle(now) => Part([Escalation.Op.Settle(now)], [])
    case PassTime(now, requireAuth) => Part([Escalation.Op.Tick(now, requireAuth)], [])
    case StandDown(now) => Part([Escalation.Op.StandDown(now)], [])
    case Target(now) => Part([], [(Fsm.Seen(now), false)])
    case Defer(span, cap) => Part([], [(Fsm.Act.Defer(span, cap), false)])
    case ConfirmAlarm(zone, fall, now) => OfConfirmation(m, zone, fall, now, setup)
    case Behave(_, ends, now) => OfTick(m, ends, now, setup)
    case _ => NOTHING
  }

  predicate Explains(part: Part, m: Machine, after: Machine, setup: Setup) {
    && after.axis == Escalation.Run(m.axis, part.ops, setup.timing)
    && after.watch == Fsm.Run(m.watch, part.acts, setup.limits)
  }

  lemma {:induction false} LevelRunsJoin(a: Escalation.Axis, s: seq<Escalation.Op>, t: seq<Escalation.Op>,
                                         timing: Escalation.Timing)
    ensures Escalation.Run(a, s + t, timing) == Escalation.Run(Escalation.Run(a, s, timing), t, timing)
    decreases |s|
  {
    hide Escalation.Apply;
    if s == [] {
      assert s + t == t;
    } else {
      LevelRunsJoin(Escalation.Apply(a, s[0], timing), s[1..], t, timing);
      assert (s + t)[1..] == s[1..] + t;
    }
  }

  lemma {:induction false} WatchRunsJoin(w: Fsm.Watch, s: seq<(Fsm.Act, bool)>, t: seq<(Fsm.Act, bool)>, limits: Fsm.Limits)
    ensures Fsm.Run(w, s + t, limits) == Fsm.Run(Fsm.Run(w, s, limits), t, limits)
    decreases |s|
  {
    hide Fsm.After;
    if s == [] {
      assert s + t == t;
    } else {
      WatchRunsJoin(Fsm.After(w, s[0].0, s[0].1, limits), s[1..], t, limits);
      assert (s + t)[1..] == s[1..] + t;
    }
  }

  lemma JoinExplains(a: Part, b: Part, m: Machine, m1: Machine, m2: Machine, setup: Setup)
    requires Explains(a, m, m1, setup) && Explains(b, m1, m2, setup)
    ensures Explains(Join(a, b), m, m2, setup)
  {
    LevelRunsJoin(m.axis, a.ops, b.ops, setup.timing);
    WatchRunsJoin(m.watch, a.acts, b.acts, setup.limits);
  }

  lemma OneOp(a: Escalation.Axis, op: Escalation.Op, timing: Escalation.Timing)
    ensures Escalation.Run(a, [op], timing) == Escalation.Apply(a, op, timing)
  {
    hide Escalation.Apply;
    assert [op][1..] == [];
  }

  lemma OneAct(w: Fsm.Watch, act: Fsm.Act, guarded: bool, limits: Fsm.Limits)
    ensures Fsm.Run(w, [(act, guarded)], limits) == Fsm.After(w, act, guarded, limits)
  {
    hide Fsm.After;
    assert [(act, guarded)][1..] == [];
  }

  lemma EventExplained(m: Machine, event: Event, now: int, setup: Setup)
    ensures Explains(OfEvent(m, event, now, setup), m, Applied(m, event, now, setup), setup)
  {
    var guarded := Holding(m.axis, setup);
    var accepted := Fsm.Told(m.watch, event, guarded, Some(now)).state != m.watch.state;
    OneOp(m.axis, Escalation.Note(event, accepted, now), setup.timing);
    OneAct(m.watch, Fsm.Act.Event(event, Some(now)), guarded, setup.limits);
    hide Escalation.Noted, Fsm.Told, Admitted, Holding;
  }

  lemma ReportExplained(m: Machine, latched: Option<bool>, now: int, setup: Setup)
    ensures Explains(OfReport(m, latched, now, setup), m, Reported(m, latched, now, setup), setup)
  {
    var heard := Part([], [(Fsm.Heard(now), false), (Fsm.Latch(latched), false)]);
    var m1 := m.(watch := m.watch.(lastTelemetry := Some(now), robotLatched := latched));
    assert Explains(heard, m, m1, setup) by {
      assert heard.acts[1..] == [(Fsm.Latch(latched), false)];
      OneAct(m.watch.(lastTelemetry := Some(now)), Fsm.Latch(latched), false, setup.limits);
    }
    EventExplained(m1, RESET_CONFIRMED, now, setup);
    hide Applied, OfEvent, Explains;
    JoinExplains(heard, OfEvent(m1, RESET_CONFIRMED, now, setup), m, m1, Applied(m1, RESET_CONFIRMED, now, setup), setup);
    SameMachines(heard, m, m1, Reported(m, latched, now, setup), setup);
    SameMachines(OfReport(m, latched, now, setup), m, Applied(m1, RESET_CONFIRMED, now, setup), Reported(m, latched, now, setup), setup);
  }

  lemma SameMachines(part: Part, m: Machine, after: Machine, other: Machine, setup: Setup)
    ensures Explains(part, m, after, setup) && other.axis == after.axis && other.watch == after.watch ==> Explains(part, m, other, setup)
  {
  }

  lemma SettlingExplained(m: Machine, zone: bool, fall: bool, now: int, setup: Setup)
    ensures var (part, settled) := Settling(m, zone, fall, now, setup); Explains(part, m, settled, setup)
  {
    EventExplained(m, ZONE_ALARM_CONFIRMED, now, setup);
    EventExplained(m, FALL_RESOLVED, now, setup);
    var resolved := Applied(m, FALL_RESOLVED, now, setup);
    var ended := resolved.(axis := Escalation.FallNoted(resolved.axis, false, now));
    OneOp(resolved.axis, Escalation.Fall(false, now), setup.timing);
    assert Explains(Part([Escalation.Fall(false, now)], []), resolved, ended, setup);
    JoinExplains(OfEvent(m, FALL_RESOLVED, now, setup), Part([Escalation.Fall(false, now)], []), m, resolved, ended, setup);
    hide Applied, OfEvent;
  }

  lemma ConfirmationExplained(m: Machine, zone: bool, fall: bool, now: int, setup: Setup)
    ensures Explains(OfConfirmation(m, zone, fall, now, setup), m, AlarmConfirmed(m, zone, fall, now, setup), setup)
  {
    if m.axis.level == Escalation.L3 {
      var released := m.(axis := Escalation.AlarmConfirmed(m.axis, now));
      var (settling, settled) := Settling(released, zone, fall, now, setup);
      var first := Part([Escalation.ConfirmAlarm(now)], []);
      OneOp(m.axis, Escalation.ConfirmAlarm(now), setup.timing);
      assert Explains(first, m, released, setup);
      SettlingExplained(released, zone, fall, now, setup);
      JoinExplains(first, settling, m, released, settled, setup);
      EventExplained(settled, ALARM_CONFIRMED, now, setup);
      var resumed := Applied(settled, ALARM_CONFIRMED, now, setup);
      JoinExplains(Join(first, settling), OfEvent(settled, ALARM_CONFIRMED, now, setup), m, settled, resumed, setup);
      JoinExplains(Join(first, settling), NOTHING, m, settled, settled, setup);
      hide Applied, OfEvent, Explains, Join, Holding;
      assert AlarmConfirmed(m, zone, fall, now, setup) == if Holding(m.axis, setup) then resumed else settled;
    }
  }

  lemma TickExplained(m: Machine, want: Commander.Intent, ends: bool, now: int, setup: Setup)
    ensures Explains(OfTick(m, ends, now, setup), m, Behaved(m, want, ends, now, setup), setup)
  {
    hide Fsm.Ticked, Escalation.Noted, Holding;
    var guarded := Holding(m.axis, setup);
    var watch := Fsm.Ticked(m.watch, guarded, now, ends, setup.limits);
    OneAct(m.watch, Fsm.Act.Tick(now, ends), guarded, setup.limits);
    OneOp(m.axis, Escalation.Note(watch.trigger.GetOr(ESTOP), true, now), setup.timing);
  }

  lemma DirectExplained(m: Machine, step: Step, setup: Setup)
    requires !step.Event? && !step.Report? && !step.Ack? && !step.ConfirmAlarm? && !step.Behave?
    ensures Explains(PartOf(m, step, setup), m, After(m, step, setup), setup)
  {
    var part := PartOf(m, step, setup);
    if part.ops != [] {
      OneOp(m.axis, part.ops[0], setup.timing);
    }
    if part.acts != [] {
      OneAct(m.watch, part.acts[0].0, false, setup.limits);
    }
  }

  lemma StepExplained(m: Machine, step: Step, setup: Setup)
    ensures Explains(PartOf(m, step, setup), m, After(m, step, setup), setup)
  {
    match step
    case Event(event, now) => EventExplained(m, event, now, setup);
    case Report(latched, now) => ReportExplained(m, latched, now, setup);
    case Ack(latched, now) =>
      ReportExplained(m, latched, now, setup);
      OneAct(m.watch, Fsm.Heard(now), false, setup.limits);
    case ConfirmAlarm(zone, fall, now) => ConfirmationExplained(m, zone, fall, now, setup);
    case Behave(want, ends, now) => TickExplained(m, want, ends, now, setup);
    case _ => DirectExplained(m, step, setup);
  }

  // ----- whole runs -----

  function PartsOf(m: Machine, steps: seq<Step>, setup: Setup): Part
    decreases |steps|
  {
    if steps == [] then NOTHING
    else Join(PartOf(m, steps[0], setup), PartsOf(After(m, steps[0], setup), steps[1..], setup))
  }

  /** Over any run, the level is where its own operations lead it, and the state machine where its own acts do. */
  lemma {:induction false} RunExplained(m: Machine, steps: seq<Step>, setup: Setup)
    ensures Explains(PartsOf(m, steps, setup), m, Run(m, steps, setup), setup)
    decreases |steps|
  {
    hide After, PartOf, Explains, Join;
    if steps == [] {
      assert Explains(NOTHING, m, m, setup) by { EmptyExplains(m, setup); }
    } else {
      var m1 := After(m, steps[0], setup);
      StepExplained(m, steps[0], setup);
      RunExplained(m1, steps[1..], setup);
      JoinExplains(PartOf(m, steps[0], setup), PartsOf(m1, steps[1..], setup), m, m1, Run(m, steps, setup), setup);
    }
  }

  lemma EmptyExplains(m: Machine, setup: Setup)
    ensures Explains(NOTHING, m, m, setup)
  {
  }

  /** So inside the runtime too an alarm is pending exactly if one was raised that no confirmation at L3 followed. */
  lemma AlarmIsNeverLost(m: Machine, steps: seq<Step>, setup: Setup)
    requires Escalation.Consistent(m.axis)
    ensures Run(m, steps, setup).axis.alarmPending
            <==> Escalation.Owed(m.axis, PartsOf(m, steps, setup).ops, setup.timing, m.axis.alarmPending)
  {
    RunExplained(m, steps, setup);
    Escalation.AlarmIsNeverLost(m.axis, PartsOf(m, steps, setup).ops, setup.timing);
  }

  /** Nobody is asked for an authentication before having been watched at L1, without a break, for the whole hold. */
  lemma AskedAfterTheHold(m: Machine, steps: seq<Step>, now: int, requireAuth: bool, setup: Setup) returns (j: nat, since: int)
    requires Escalation.Consistent(m.axis) && m.axis.level != Escalation.L1
    requires var end := Run(m, steps, setup);
             end.axis.level != Escalation.L2 && After(end, PassTime(now, requireAuth), setup).axis.level == Escalation.L2
    ensures requireAuth && !Run(m, steps, setup).axis.authenticated
    ensures Escalation.BeganAt(m.axis, PartsOf(m, steps, setup).ops, setup.timing, j, since) && now - since >= setup.timing.hold
  {
    RunExplained(m, steps, setup);
    j, since := Escalation.PromotionNeedsTheHold(m.axis, PartsOf(m, steps, setup).ops, setup.timing,
                                                 Escalation.Op.Tick(now, requireAuth));
  }

  lemma {:induction false} CapsCarryOver(m: Machine, steps: seq<Step>, setup: Setup, cap: int)
    requires forall i :: 0 <= i < |steps| && steps[i].Defer? ==> steps[i].cap <= cap
    ensures Fsm.CapsWithin(PartsOf(m, steps, setup).acts, cap)
    decreases |steps|
  {
    hide After;
    if steps != [] {
      CapsCarryOver(After(m, steps[0], setup), steps[1..], setup, cap);
      CapOfStep(m, steps[0], setup, cap);
      hide PartOf;
    }
  }

  lemma CapOfStep(m: Machine, step: Step, setup: Setup, cap: int)
    requires step.Defer? ==> step.cap <= cap
    ensures Fsm.CapsWithin(PartOf(m, step, setup).acts, cap)
  {
    hide Applied, Fsm.Told, Fsm.Ticked, Admitted, Holding, Escalation.FallNoted;
  }

  /** All deferrals of one stay together stay within the largest cap, whatever else happens in the runtime. */
  lemma DeferralIsCapped(m: Machine, steps: seq<Step>, setup: Setup, cap: int)
    requires 0 <= m.watch.deferred <= cap
    requires forall i :: 0 <= i < |steps| && steps[i].Defer? ==> steps[i].cap <= cap
    ensures 0 <= Run(m, steps, setup).watch.deferred <= cap
  {
    RunExplained(m, steps, setup);
    CapsCarryOver(m, steps, setup, cap);
    Fsm.DeferralIsCapped(m.watch, PartsOf(m, steps, setup).acts, setup.limits, cap);
  }
}
