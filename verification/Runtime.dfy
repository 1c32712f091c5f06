/** The runtime couples two machines written apart: what the robot does (Fsm) and how strongly it responds (Escalation). */
module Runtime {
  import opened Optional
  import opened Events
  import Commander
  import Escalation
  import Fsm

  // ----- the mode gate -----

  datatype Mode = GUARD | FACTORY

  datatype Feature = AUTH | CHANGE_DETECT | PPE | FALLEN | TRACKING

  function FeatureOf(event: Event): Option<Feature> {
    match event
    case AUTH_REQUIRED => Some(AUTH)
    case AUTH_OK => Some(AUTH)
    case AUTH_FAILED => Some(AUTH)
    case ZONE_ARRIVED => Some(CHANGE_DETECT)
    case ZONE_CLEAR => Some(CHANGE_DETECT)
    case ZONE_CHANGED => Some(CHANGE_DETECT)
    case ZONE_ALARM_CONFIRMED => Some(CHANGE_DETECT)
    case PPE_VIOLATION => Some(PPE)
    case PPE_SETTLED => Some(PPE)
    case PERSON_DOWN => Some(FALLEN)
    case FALL_SUSPECTED => Some(FALLEN)
    case FALL_RESOLVED => Some(FALLEN)
    case TARGET_OFF_CENTER => Some(TRACKING)
    case _ => None
  }

  predicate Enables(mode: Mode, feature: Feature) {
    feature == TRACKING || (mode == GUARD <==> feature == AUTH)
  }

  predicate Allows(mode: Mode, event: Event) {
    FeatureOf(event).Some? ==> Enables(mode, FeatureOf(event).value)
  }

  // ----- both machines together -----

  datatype Setup = Setup(timing: Escalation.Timing, limits: Fsm.Limits, motionLock: bool)

  datatype Machine = Machine(axis: Escalation.Axis, watch: Fsm.Watch, intent: Commander.Intent, resetPending: bool, mode: Mode)

  /** The alarm guard handed to the state machine. */
  predicate Holding(axis: Escalation.Axis, setup: Setup) {
    setup.limits.holdOnAlarm && Escalation.Latched(axis) && (axis.level == Escalation.L3 || axis.alarmPending)
  }

  predicate Admitted(m: Machine, event: Event, setup: Setup) {
    !(setup.motionLock && event == START_PATROL) && Allows(m.mode, event)
  }

  /** `Runtime._apply`: the gates, then the state machine, then the level - which is told whether the event was accepted. */
  function Applied(m: Machine, event: Event, now: int, setup: Setup): Machine {
    if !Admitted(m, event, setup) then m
    else
      var watch := Fsm.Told(m.watch, event, Holding(m.axis, setup), Some(now));
      var axis := Escalation.Noted(m.axis, event, watch.state != m.watch.state, now, setup.timing);
      m.(watch := watch, axis := axis, intent := if Holding(axis, setup) then Commander.HALT else m.intent)
  }

  /** `_settle_reset`: the robot reports its latch released, and a reset was asked for. */
  function ResetSettled(m: Machine, latched: Option<bool>, now: int, setup: Setup): Machine {
    if !m.resetPending || latched != Some(false) then m
    else
      var after := if m.watch.state == Fsm.FAILSAFE then Applied(m, RESET_CONFIRMED, now, setup) else m;
      if m.watch.state == Fsm.FAILSAFE && after.watch.state == Fsm.FAILSAFE then after else after.(resetPending := false)
  }

  /** What `ingest` does with an accepted telemetry report. */
  function Reported(m: Machine, latched: Option<bool>, now: int, setup: Setup): Machine {
    ResetSettled(m.(watch := m.watch.(lastTelemetry := Some(now), robotLatched := latched)), latched, now, setup)
  }

  /** A command's acknowledgement counts as a sign of life too; it need not carry the latch. */
  function Acknowledged(m: Machine, latched: Option<bool>, now: int, setup: Setup): Machine {
    if latched.None? then m.(watch := m.watch.(lastTelemetry := Some(now))) else Reported(m, latched, now, setup)
  }

  /** `confirm_alarm`: `zone` and `fall` say what the alarm was about. */
  function AlarmConfirmed(m: Machine, zone: bool, fall: bool, now: int, setup: Setup): Machine {
    if m.axis.level != Escalation.L3 then m
    else
      var released := m.(axis := Escalation.AlarmConfirmed(m.axis, now));
      var settled :=
        if zone then Applied(released, ZONE_ALARM_CONFIRMED, now, setup)
        else if fall then
          var resolved := Applied(released, FALL_RESOLVED, now, setup);
          resolved.(axis := Escalation.FallNoted(resolved.axis, false, now))
        else released;
      if Holding(m.axis, setup) then Applied(settled, ALARM_CONFIRMED, now, setup) else settled
  }

  /** The repeated intent of a robot that stands, as its postures leave it: not STOP, but no step either. */
  const STAND := Commander.Intent(Commander.MOVE, [0, 0])

  /** What the sequence registered for a state leaves. The posture states stand; in a factory the judge of protective gear has
      ALERT, and may back away; nothing is registered for the hazard states. `want` is what the others decide. */
  function Sequenced(state: Fsm.State, mode: Mode, want: Commander.Intent): Commander.Intent {
    match state
    case SCAN => STAND
    case AUTH_WAIT => STAND
    case ALERT => if mode == GUARD then STAND else want
    case HAZARD_DISPATCH => Commander.HALT
    case HAZARD_SCAN => Commander.HALT
    case _ => want
  }

  /** `Behavior.tick`, and the transition it made - which did not pass `_apply` - told to the level. */
  function Behaved(m: Machine, want: Commander.Intent, ends: bool, now: int, setup: Setup): Machine {
    var holding := Holding(m.axis, setup);
    var watch := Fsm.Ticked(m.watch, holding, now, ends, setup.limits);
    var drive := (state: Fsm.State) => Sequenced(state, m.mode, want);
    var intent := Fsm.Directed(Fsm.Watched(m.watch, holding, now, setup.limits), holding, m.intent, drive);
    var axis :=
      if watch.state != m.watch.state && watch.trigger.Some? then
        Escalation.Noted(m.axis, watch.trigger.value, true, now, setup.timing)
      else m.axis;
    m.(watch := watch, intent := intent, axis := axis)
  }

  datatype Step =
    | Event(event: Events.Event, now: int)
    | Report(latched: Option<bool>, now: int)
    | Ack(latched: Option<bool>, now: int)
    | Person(present: bool, seen: Option<int>, now: int)
    | Fall(active: bool, now: int)
    | Authenticate(now: int)
    | AuthenticationLost
    | Settle(now: int)
    | PassTime(now: int, requireAuth: bool)
    | StandDown(now: int)
    | Target(now: int)
    | Defer(span: int, cap: int)
    | Steer(intent: Commander.Intent)
    | RequestReset
    | SwitchMode(mode: Mode)
    | ConfirmAlarm(zone: bool, fall: bool, now: int)
    | Behave(want: Commander.Intent, ends: bool, now: int)

  function After(m: Machine, step: Step, setup: Setup): Machine {
    match step
    case Event(event, now) => Applied(m, event, now, setup)
    case Report(latched, now) => Reported(m, latched, now, setup)
    case Ack(latched, now) => Acknowledged(m, latched, now, setup)
    case Person(present, seen, now) => m.(axis := Escalation.PersonNoted(m.axis, present, seen, now))
    case Fall(active, now) => m.(axis := Escalation.FallNoted(m.axis, active, now))
    case Authenticate(now) => m.(axis := Escalation.Authenticated(m.axis, now))
    case AuthenticationLost => m.(axis := m.axis.(authenticated := false))
    case Settle(now) => m.(axis := Escalation.Settled(m.axis, now))
    case PassTime(now, requireAuth) => m.(axis := Escalation.Ticked(m.axis, now, requireAuth, setup.timing))
    case StandDown(now) => m.(axis := Escalation.StoodDown(m.axis, now))
    case Target(now) => m.(watch := m.watch.(lastTarget := Some(now)))
    case Defer(span, cap) => m.(watch := Fsm.Deferred(m.watch, span, cap))
    case Steer(intent) => m.(intent := intent)
    case RequestReset => m.(resetPending := true, intent := Commander.HALT)
    case SwitchMode(mode) => if m.watch.state == Fsm.IDLE || m.watch.state == Fsm.MANUAL then m.(mode := mode) else m
    case ConfirmAlarm(zone, fall, now) => AlarmConfirmed(m, zone, fall, now, setup)
    case Behave(want, ends, now) => Behaved(m, want, ends, now, setup)
  }

  // ----- what every step keeps -----

  /** FAILSAFE and F are one thing in two machines. */
  ghost predicate Coupled(m: Machine) {
    Escalation.Consistent(m.axis) && (m.watch.state == Fsm.FAILSAFE <==> m.axis.level == Escalation.F)
  }

  lemma FailsafeIsF(m: Machine)
    requires Coupled(m)
    ensures m.watch.state == Fsm.FAILSAFE <==> m.axis.level == Escalation.F
  {
  }

  lemma NotedAndF(a: Escalation.Axis, event: Event, accepted: bool, now: int, timing: Escalation.Timing)
    requires Escalation.Consistent(a)
    ensures Escalation.Consistent(Escalation.Noted(a, event, accepted, now, timing))
    ensures Escalation.Noted(a, event, accepted, now, timing).level == Escalation.F <==>
              (Fsm.Safety(event) || (a.level == Escalation.F && !(event == RESET_CONFIRMED && accepted)))
    ensures a.alarmPending ==> Escalation.Noted(a, event, accepted, now, timing).alarmPending
    ensures a.level == Escalation.F && event == RESET_CONFIRMED && accepted ==>
              Escalation.Noted(a, event, accepted, now, timing).level == if a.alarmPending then Escalation.L3 else Escalation.L0
  {
  }

  lemma ToldAndFailsafe(w: Fsm.Watch, event: Event, holding: bool, now: int)
    ensures var v := Fsm.Told(w, event, holding, Some(now));
            v.state == Fsm.FAILSAFE <==>
              Fsm.Safety(event) || (w.state == Fsm.FAILSAFE && !(event == RESET_CONFIRMED && v.state != w.state))
    ensures w.state == Fsm.FAILSAFE && Fsm.Told(w, event, holding, Some(now)).state != Fsm.FAILSAFE ==>
              event == RESET_CONFIRMED && w.robotLatched != Some(true)
  {
    hide Fsm.Row;
    Fsm.HandledAndFailsafe(w, event, holding, Some(now));
    Fsm.FailsafeIsSealed(w.state, event);
  }

  lemma AppliedKeeps(m: Machine, event: Event, now: int, setup: Setup)
    requires Coupled(m)
    ensures var after := Applied(m, event, now, setup);
            && Coupled(after) && after.mode == m.mode && after.resetPending == m.resetPending
            && after.watch.lastTelemetry == m.watch.lastTelemetry && after.watch.robotLatched == m.watch.robotLatched
            && (m.axis.alarmPending ==> after.axis.alarmPending)
            && (m.watch.state == Fsm.FAILSAFE && after.watch.state != Fsm.FAILSAFE ==>
                  && event == RESET_CONFIRMED && m.watch.robotLatched != Some(true)
                  && after.axis.level == if m.axis.alarmPending then Escalation.L3 else Escalation.L0)
  {
    hide Fsm.Told, Escalation.Noted, Allows;
    if Admitted(m, event, setup) {
      var holding := Holding(m.axis, setup);
      var watch := Fsm.Told(m.watch, event, holding, Some(now));
      ToldAndFailsafe(m.watch, event, holding, now);
      ToldLeavesReports(m.watch, event, holding, now);
      NotedAndF(m.axis, event, watch.state != m.watch.state, now, setup.timing);
    }
  }

  lemma ToldLeavesReports(w: Fsm.Watch, event: Event, holding: bool, now: int)
    ensures var v := Fsm.Told(w, event, holding, Some(now));
            v.lastTelemetry == w.lastTelemetry && v.robotLatched == w.robotLatched && v.lastTarget == w.lastTarget
  {
    hide Fsm.Target;
  }

  lemma ConfirmedKeeps(m: Machine, zone: bool, fall: bool, now: int, setup: Setup)
    requires Coupled(m)
    ensures var after := AlarmConfirmed(m, zone, fall, now, setup);
            && Coupled(after) && after.watch.lastTelemetry == m.watch.lastTelemetry
            && (m.watch.state == Fsm.FAILSAFE ==> after == m)
            && (m.axis.level != Escalation.L3 ==> after == m)
  {
    hide Applied, Escalation.Noted;
    if m.axis.level == Escalation.L3 {
      var released := m.(axis := Escalation.AlarmConfirmed(m.axis, now));
      AppliedKeeps(released, ZONE_ALARM_CONFIRMED, now, setup);
      AppliedKeeps(released, FALL_RESOLVED, now, setup);
      var resolved := Applied(released, FALL_RESOLVED, now, setup);
      var settled := if zone then Applied(released, ZONE_ALARM_CONFIRMED, now, setup)
                     else if fall then resolved.(axis := Escalation.FallNoted(resolved.axis, false, now))
                     else released;
      AppliedKeeps(settled, ALARM_CONFIRMED, now, setup);
    }
  }

  lemma BehavedKeeps(m: Machine, want: Commander.Intent, ends: bool, now: int, setup: Setup)
    requires Coupled(m)
    ensures var after := Behaved(m, want, ends, now, setup);
            && Coupled(after) && (m.axis.alarmPending ==> after.axis.alarmPending)
            && (m.watch.state == Fsm.FAILSAFE ==> after.watch.state == Fsm.FAILSAFE)
            && (Fsm.Stale(m.watch, now, setup.limits) ==> after.watch.state == Fsm.FAILSAFE && after.intent == Commander.HALT)
            && (Holding(m.axis, setup) ==> after.intent == Commander.HALT)
  {
    hide Fsm.Ticked, Fsm.Watched, Escalation.Noted;
    var holding := Holding(m.axis, setup);
    var watch := Fsm.Ticked(m.watch, holding, now, ends, setup.limits);
    Fsm.TickAndFailsafe(m.watch, holding, now, ends, setup.limits);
    Fsm.TickNames(m.watch, holding, now, ends, setup.limits);
    if Fsm.Stale(m.watch, now, setup.limits) {
      Fsm.StaleTickStops(m.watch, holding, now, ends, setup.limits, m.intent,
                         (state: Fsm.State) => Sequenced(state, m.mode, want));
    }
    if watch.state != m.watch.state && watch.trigger.Some? {
      NotedAndF(m.axis, watch.trigger.value, true, now, setup.timing);
    }
  }

  /** Every step keeps the machines coupled; FAILSAFE is left only by a reset the robot's latch does not contradict; and a
      pending alarm outlives everything but its confirmation. */
  lemma StepKeeps(m: Machine, step: Step, setup: Setup)
    requires Coupled(m)
    ensures Coupled(After(m, step, setup))
    ensures m.watch.state == Fsm.FAILSAFE && After(m, step, setup).watch.state != Fsm.FAILSAFE ==> Frees(m, step)
    ensures m.watch.state == Fsm.FAILSAFE && After(m, step, setup).watch.state != Fsm.FAILSAFE ==>
              After(m, step, setup).axis.level == if m.axis.alarmPending then Escalation.L3 else Escalation.L0
    ensures m.axis.alarmPending && !(step.ConfirmAlarm? && m.axis.level == Escalation.L3) ==>
              After(m, step, setup).axis.alarmPending
  {
    hide Applied, AlarmConfirmed, Behaved, Escalation.Noted;
    match step
    case Event(event, now) => AppliedKeeps(m, event, now, setup);
    case Report(latched, now) =>
      AppliedKeeps(m.(watch := m.watch.(lastTelemetry := Some(now), robotLatched := latched)), RESET_CONFIRMED, now, setup);
    case Ack(latched, now) =>
      AppliedKeeps(m.(watch := m.watch.(lastTelemetry := Some(now), robotLatched := latched)), RESET_CONFIRMED, now, setup);
    case ConfirmAlarm(zone, fall, now) => ConfirmedKeeps(m, zone, fall, now, setup);
    case Behave(want, ends, now) => BehavedKeeps(m, want, ends, now, setup);
    case _ => AxisStepKeeps(m, step, setup);
  }

  lemma AxisStepKeeps(m: Machine, step: Step, setup: Setup)
    requires Coupled(m)
    requires !step.Event? && !step.Report? && !step.Ack? && !step.ConfirmAlarm? && !step.Behave?
    ensures Coupled(After(m, step, setup)) && After(m, step, setup).watch.state == m.watch.state
    ensures m.axis.alarmPending ==> After(m, step, setup).axis.alarmPending
    ensures !step.Target? ==> After(m, step, setup).watch.lastTarget == m.watch.lastTarget
    ensures After(m, step, setup).watch.lastTelemetry == m.watch.lastTelemetry
  {
  }

  /** The only steps that free a robot in FAILSAFE: an explicit RESET_CONFIRMED while the robot does not report its latch
      set, or a report of the latch released after somebody asked for the reset. */
  predicate Frees(m: Machine, step: Step) {
    || (step.Event? && step.event == RESET_CONFIRMED && m.watch.robotLatched != Some(true))
    || ((step.Report? || step.Ack?) && step.latched == Some(false) && m.resetPending)
  }

  // ----- whole runs -----

  function Run(m: Machine, steps: seq<Step>, setup: Setup): Machine
    decreases |steps|
  {
    if steps == [] then m else Run(After(m, steps[0], setup), steps[1..], setup)
  }

  predicate Confirmed(m: Machine, steps: seq<Step>, setup: Setup)
    decreases |steps|
  {
    steps != []
    && ((steps[0].ConfirmAlarm? && m.axis.level == Escalation.L3) || Confirmed(After(m, steps[0], setup), steps[1..], setup))
  }

  predicate Freed(m: Machine, steps: seq<Step>, setup: Setup)
    decreases |steps|
  {
    steps != [] && ((m.watch.state == Fsm.FAILSAFE && Frees(m, steps[0])) || Freed(After(m, steps[0], setup), steps[1..], setup))
  }

  /** Over any run, in any order of reports, events, timers, sightings, operator actions and ticks. */
  lemma {:induction false} RunKeeps(m: Machine, steps: seq<Step>, setup: Setup)
    requires Coupled(m)
    ensures var end := Run(m, steps, setup);
            && Coupled(end)
            && (m.watch.state == Fsm.FAILSAFE && end.watch.state != Fsm.FAILSAFE ==> Freed(m, steps, setup))
            && (m.axis.alarmPending && !Confirmed(m, steps, setup) ==>
                  end.axis.alarmPending && Escalation.Latched(end.axis))
    decreases |steps|
  {
    hide After, Frees;
    if steps != [] {
      StepKeeps(m, steps[0], setup);
      RunKeeps(After(m, steps[0], setup), steps[1..], setup);
    }
  }

  lemma RunSingle(m: Machine, step: Step, setup: Setup)
    ensures Run(m, [step], setup) == After(m, step, setup)
  {
    hide After;
    assert [step][1..] == [];
  }

  lemma {:induction false} RunOne(m: Machine, steps: seq<Step>, step: Step, setup: Setup)
    ensures Run(m, steps + [step], setup) == After(Run(m, steps, setup), step, setup)
    decreases |steps|
  {
    hide After;
    if steps == [] {
      assert steps + [step] == [step];
      RunSingle(m, step, setup);
    } else {
      assert (steps + [step])[0] == steps[0] && (steps + [step])[1..] == steps[1..] + [step];
      RunOne(After(m, steps[0], setup), steps[1..], step, setup);
    }
  }

  // ----- what the gates and the confirmations are for -----

  const OF_GUARD := {AUTH_REQUIRED, AUTH_OK, AUTH_FAILED}
  const OF_FACTORY := {ZONE_ARRIVED, ZONE_CLEAR, ZONE_CHANGED, ZONE_ALARM_CONFIRMED, PPE_VIOLATION, PPE_SETTLED, PERSON_DOWN,
                       FALL_SUSPECTED, FALL_RESOLVED}

  /** The mode decides which events can happen: authentication in the guard mode, zones, gear and falls in the factory. */
  lemma ModeGate(m: Machine, event: Event, now: int, setup: Setup)
    ensures event in OF_GUARD && m.mode != GUARD ==> Applied(m, event, now, setup) == m
    ensures event in OF_FACTORY && m.mode != FACTORY ==> Applied(m, event, now, setup) == m
    ensures event == START_PATROL && setup.motionLock ==> Applied(m, event, now, setup) == m
    ensures event in OF_GUARD && m.mode == GUARD ==> Admitted(m, event, setup)
    ensures event in OF_FACTORY && m.mode == FACTORY ==> Admitted(m, event, setup)
    ensures event !in OF_GUARD && event !in OF_FACTORY && event != START_PATROL ==> Admitted(m, event, setup)
  {
    ModeAllows(m.mode, event);
    hide Fsm.Told, Escalation.Noted, Allows;
  }

  lemma ModeAllows(mode: Mode, event: Event)
    ensures Allows(mode, event) <==> !(event in OF_GUARD && mode != GUARD) && !(event in OF_FACTORY && mode != FACTORY)
    ensures START_PATROL !in OF_GUARD && START_PATROL !in OF_FACTORY && !(event in OF_GUARD && event in OF_FACTORY)
  {
  }

  /** Confirming an alarm that holds the robot calms the level and sends it back on patrol, whatever the alarm was about. */
  lemma ConfirmationResumes(m: Machine, zone: bool, fall: bool, now: int, setup: Setup)
    requires Coupled(m) && Holding(m.axis, setup) && m.watch.state in {Fsm.ALERT, Fsm.TRACK, Fsm.AUTH_WAIT}
    requires m.axis.level == Escalation.L3
    ensures var after := AlarmConfirmed(m, zone, fall, now, setup);
            && after.watch.state == Fsm.PATROL && after.axis.level == Escalation.L0 && !after.axis.alarmPending
            && !Holding(after.axis, setup)
  {
    hide Applied, Fsm.Target, Escalation.Noted;
    var released := m.(axis := Escalation.AlarmConfirmed(m.axis, now));
    var settled :=
      if zone then Applied(released, ZONE_ALARM_CONFIRMED, now, setup)
      else if fall then
        var resolved := Applied(released, FALL_RESOLVED, now, setup);
        resolved.(axis := Escalation.FallNoted(resolved.axis, false, now))
      else released;
    CalmEvent(released, ZONE_ALARM_CONFIRMED, now, setup);
    CalmEvent(released, FALL_RESOLVED, now, setup);
    CalmEvent(settled, ALARM_CONFIRMED, now, setup);
    ConfirmTargets(m.watch.state);
  }

  /** An event that raises nothing, on a calm level: the machine follows the table if the mode admits it. */
  lemma CalmEvent(m: Machine, event: Event, now: int, setup: Setup)
    requires m.axis.level == Escalation.L0 && event in {ZONE_ALARM_CONFIRMED, FALL_RESOLVED, ALARM_CONFIRMED}
    requires !m.axis.alarmPending && m.axis.warnUntil.None?
    ensures var after := Applied(m, event, now, setup);
            && after.axis == m.axis
            && after.watch.state == if Admitted(m, event, setup) then Fsm.Target(m.watch.state, event).GetOr(m.watch.state)
                                    else m.watch.state
    ensures event == ALARM_CONFIRMED ==> Admitted(m, event, setup)
  {
    hide Fsm.Target;
  }

  lemma ConfirmTargets(state: Fsm.State)
    requires state in {Fsm.ALERT, Fsm.TRACK, Fsm.AUTH_WAIT}
    ensures Fsm.Target(state, ALARM_CONFIRMED) == Some(Fsm.PATROL)
    ensures Fsm.Target(state, ZONE_ALARM_CONFIRMED) in {None, Some(Fsm.PATROL)}
    ensures Fsm.Target(state, FALL_RESOLVED) in {None, Some(Fsm.PATROL)}
    ensures Fsm.Target(Fsm.PATROL, ALARM_CONFIRMED).None?
  {
  }

  /** What the robot says is heard, whatever comes of it: a report refreshes the link and the latch, an acknowledgement without
      the latch the link. */
  lemma ReportIsHeard(m: Machine, latched: Option<bool>, now: int, setup: Setup)
    ensures var after := Reported(m, latched, now, setup);
            after.watch.lastTelemetry == Some(now) && after.watch.robotLatched == latched
    ensures Acknowledged(m, latched, now, setup).watch.lastTelemetry == Some(now)
    ensures latched.None? ==> Acknowledged(m, latched, now, setup).watch.robotLatched == m.watch.robotLatched
  {
    hide Fsm.Told, Escalation.Noted;
    ToldLeavesReports(m.watch.(lastTelemetry := Some(now), robotLatched := latched), RESET_CONFIRMED, Holding(m.axis, setup), now);
  }

  /** A reset that was asked for frees the robot at the report that its latch is released: at rest, under the alarm if one is
      pending. */
  lemma ResetFrees(m: Machine, now: int, setup: Setup)
    requires Coupled(m) && m.watch.state == Fsm.FAILSAFE && m.resetPending
    ensures var after := Reported(m, Some(false), now, setup);
            && after.watch.state == Fsm.IDLE && !after.resetPending
            && after.axis.level == if m.axis.alarmPending then Escalation.L3 else Escalation.L0
  {
    Fsm.FailsafeIsSealed(Fsm.FAILSAFE, RESET_CONFIRMED);
    Fsm.FromEverywhere(Fsm.IDLE);
    hide Fsm.Target;
  }

  /** An event that leaves an alarm holding the robot stops it at once, and no other event touches the intent. */
  lemma AlarmStopsAtOnce(m: Machine, event: Event, now: int, setup: Setup)
    ensures var after := Applied(m, event, now, setup);
            after.intent == if Admitted(m, event, setup) && Holding(after.axis, setup) then Commander.HALT else m.intent
  {
    hide Fsm.Told, Escalation.Noted, Holding, Admitted;
  }

  /** A reset stays asked for until a report of the released latch finds the robot out of FAILSAFE or takes it out; a report
      without FAILSAFE changes no intent. */
  lemma ResetIsSettledIff(m: Machine, latched: Option<bool>, now: int, setup: Setup)
    ensures var after := Reported(m, latched, now, setup);
            && (after.resetPending <==> m.resetPending && (latched != Some(false) || after.watch.state == Fsm.FAILSAFE))
            && (m.watch.state != Fsm.FAILSAFE ==> after.intent == m.intent && after.axis == m.axis && after.watch.state == m.watch.state)
            && (latched.Some? ==> Acknowledged(m, latched, now, setup) == after)
  {
    var m1 := m.(watch := m.watch.(lastTelemetry := Some(now), robotLatched := latched));
    hide Fsm.Told, Escalation.Noted, Holding, Admitted;
  }

  /** The mode changes at rest or under manual control only; the operator's drive is taken as it is, and asking for a reset
      stops the robot. No other step but an event, a report, a confirmation or the behaviour tick touches the intent. */
  lemma OwnFields(m: Machine, step: Step, setup: Setup)
    ensures var after := After(m, step, setup);
            && after.mode == (if step.SwitchMode? && m.watch.state in {Fsm.IDLE, Fsm.MANUAL} then step.mode else m.mode)
            && (step.Steer? ==> after == m.(intent := step.intent))
            && (step.RequestReset? ==> after == m.(intent := Commander.HALT, resetPending := true))
            && (step.Person? || step.Fall? || step.Authenticate? || step.AuthenticationLost? || step.Settle? || step.PassTime?
                || step.StandDown? || step.Target? || step.Defer? || step.SwitchMode? ==>
                  after.intent == m.intent && after.resetPending == m.resetPending)
  {
    hide Fsm.Told, Fsm.Ticked, Fsm.Watched, Escalation.Noted, Escalation.Ticked, Holding, Admitted;
  }

  /** Who decides what a state leaves: the postures stand, the hazard states stop, and in the factory ALERT is the judge's. */
  lemma SequenceIs(state: Fsm.State, mode: Mode, want: Commander.Intent)
    ensures Sequenced(state, mode, want)
            == if state in {Fsm.HAZARD_DISPATCH, Fsm.HAZARD_SCAN} then Commander.HALT
               else if state in {Fsm.SCAN, Fsm.AUTH_WAIT} || (state == Fsm.ALERT && mode != FACTORY) then STAND
               else want
  {
  }

  // ----- one turn of the loop -----

  /** Everything before the behaviour tick: at rest the level stands down, and between the polls time passes for it. */
  function PolledAll(m: Machine, early: seq<Step>, middle: seq<Step>, late: seq<Step>, now: int, setup: Setup): Machine {
    var a := Run(m, early, setup);
    var b := if a.watch.state == Fsm.IDLE || a.watch.state == Fsm.MANUAL then After(a, StandDown(now), setup) else a;
    var c := Run(b, middle, setup);
    Run(After(c, PassTime(now, Enables(c.mode, AUTH)), setup), late, setup)
  }

  /** A turn whose polls find nothing: the level stands down at rest, and otherwise does what time alone makes it do. */
  lemma QuietTurn(m: Machine, now: int, setup: Setup)
    requires Coupled(m)
    ensures var after := PolledAll(m, [], [], [], now, setup);
            && after.watch == m.watch && after.mode == m.mode && after.intent == m.intent
            && if m.watch.state in {Fsm.IDLE, Fsm.MANUAL} && m.axis.level in {Escalation.L1, Escalation.L2} then
                 after.axis.level == Escalation.L0
               else after.axis == Escalation.Ticked(m.axis, now, m.mode == GUARD, setup.timing)
  {
  }

  /** A warning that should have ended. */
  predicate WarningOver(m: Machine, now: int) {
    m.axis.warnUntil.Some? && now >= m.axis.warnUntil.value
  }

  lemma QuietBehaved(m: Machine, want: Commander.Intent, ends: bool, now: int, setup: Setup)
    requires !WarningOver(m, now)
    ensures !WarningOver(Behaved(m, want, ends, now, setup), now)
  {
    hide Fsm.Ticked, Fsm.Watched, Fsm.Directed, Fsm.Stale, Fsm.TimerDue, Fsm.Awake, Fsm.Visited, Fsm.Target;
    var holding := Holding(m.axis, setup);
    if TimesOut(m.watch, now, setup.limits) && !holding {
      Fsm.TimeOutIsReported(m.watch, now, ends, setup.limits);
    } else {
      Fsm.TickIsQuiet(m.watch, holding, now, ends, setup.limits);
    }
  }

  /** If nothing comes after the level's clock, a turn leaves no warning that should have ended. */
  lemma PolledNoWarning(m: Machine, early: seq<Step>, middle: seq<Step>, late: seq<Step>, want: Commander.Intent, ends: bool,
                        now: int, setup: Setup)
    ensures late == [] ==> !WarningOver(Behaved(PolledAll(m, early, middle, late, now, setup), want, ends, now, setup), now)
  {
    hide Behaved;
    if late == [] {
      QuietBehaved(PolledAll(m, early, middle, late, now, setup), want, ends, now, setup);
    }
  }

  // ----- authentication is a matter of the guard mode -----

  /** AUTH_WAIT is reached by an event of the guard mode, and the mode changes only at rest. */
  predicate WaitsInGuard(m: Machine) {
    m.watch.state == Fsm.AUTH_WAIT ==> m.mode == GUARD
  }

  lemma AppliedWaits(m: Machine, event: Event, now: int, setup: Setup)
    requires WaitsInGuard(m)
    ensures WaitsInGuard(Applied(m, event, now, setup))
  {
    hide Fsm.Told, Escalation.Noted, Holding;
    Fsm.ToldAndWaiting(m.watch, event, Holding(m.axis, setup), Some(now));
  }

  lemma ConfirmedWaits(m: Machine, zone: bool, fall: bool, now: int, setup: Setup)
    requires WaitsInGuard(m)
    ensures WaitsInGuard(AlarmConfirmed(m, zone, fall, now, setup))
  {
    hide Applied, Holding;
    var released := m.(axis := Escalation.AlarmConfirmed(m.axis, now));
    AppliedWaits(released, ZONE_ALARM_CONFIRMED, now, setup);
    AppliedWaits(released, FALL_RESOLVED, now, setup);
    var resolved := Applied(released, FALL_RESOLVED, now, setup);
    var settled := if zone then Applied(released, ZONE_ALARM_CONFIRMED, now, setup)
                   else if fall then resolved.(axis := Escalation.FallNoted(resolved.axis, false, now))
                   else released;
    AppliedWaits(settled, ALARM_CONFIRMED, now, setup);
  }

  lemma BehavedWaits(m: Machine, want: Commander.Intent, ends: bool, now: int, setup: Setup)
    requires WaitsInGuard(m)
    ensures WaitsInGuard(Behaved(m, want, ends, now, setup))
  {
    hide Fsm.Ticked, Fsm.Watched, Fsm.Directed, Escalation.Noted, Holding;
    Fsm.TickAndWaiting(m.watch, Holding(m.axis, setup), now, ends, setup.limits);
  }

  lemma StepWaits(m: Machine, step: Step, setup: Setup)
    requires WaitsInGuard(m)
    ensures WaitsInGuard(After(m, step, setup))
  {
    hide Applied, AlarmConfirmed, Behaved, Escalation.Ticked;
    match step
    case Event(event, now) => AppliedWaits(m, event, now, setup);
    case Report(latched, now) =>
      AppliedWaits(m.(watch := m.watch.(lastTelemetry := Some(now), robotLatched := latched)), RESET_CONFIRMED, now, setup);
    case Ack(latched, now) =>
      AppliedWaits(m.(watch := m.watch.(lastTelemetry := Some(now), robotLatched := latched)), RESET_CONFIRMED, now, setup);
    case ConfirmAlarm(zone, fall, now) => ConfirmedWaits(m, zone, fall, now, setup);
    case Behave(want, ends, now) => BehavedWaits(m, want, ends, now, setup);
    case _ =>
  }

  lemma {:induction false} RunWaits(m: Machine, steps: seq<Step>, setup: Setup)
    requires WaitsInGuard(m)
    ensures WaitsInGuard(Run(m, steps, setup))
    decreases |steps|
  {
    hide After, WaitsInGuard;
    if steps != [] {
      StepWaits(m, steps[0], setup);
      RunWaits(After(m, steps[0], setup), steps[1..], setup);
    }
  }

  // ----- an alarm and the intent of the tick that raises it -----

  /** The one way a tick can let AUTH_WAIT end: nobody answered in time. */
  predicate TimesOut(w: Fsm.Watch, now: int, limits: Fsm.Limits) {
    w.state == Fsm.AUTH_WAIT && !Fsm.Stale(w, now, limits) && Fsm.TimerDue(Fsm.Awake(w, now), now, limits)
  }

  /** Nobody answering in time is an alarm: the time-out of AUTH_WAIT, which no event carries, still latches L3. */
  lemma TimeOutRaisesTheAlarm(m: Machine, want: Commander.Intent, ends: bool, now: int, setup: Setup)
    requires Coupled(m) && !Holding(m.axis, setup) && TimesOut(m.watch, now, setup.limits)
    ensures Behaved(m, want, ends, now, setup).axis.alarmPending
    ensures Escalation.Latched(Behaved(m, want, ends, now, setup).axis)
  {
    hide Fsm.Ticked, Fsm.Watched, Fsm.Stale, Fsm.TimerDue;
    Fsm.TimeOutIsReported(m.watch, now, ends, setup.limits);
  }

  /** Exactly when a tick leaves another intent than STOP under an alarm that holds the robot: the tick's own time-out raised
      the alarm. The intent is then that of a standing robot, whatever the walking states would want. */
  lemma AlarmWithoutStopIff(m: Machine, want: Commander.Intent, ends: bool, now: int, setup: Setup)
    requires Coupled(m) && WaitsInGuard(m)
    ensures var after := Behaved(m, want, ends, now, setup);
            && (Holding(after.axis, setup) && after.intent != Commander.HALT <==>
                  setup.limits.holdOnAlarm && !Holding(m.axis, setup) && TimesOut(m.watch, now, setup.limits))
            && (Holding(after.axis, setup) ==> after.intent == Commander.HALT || after.intent == STAND)
  {
    hide Fsm.Ticked, Fsm.Watched, Fsm.Stale, Fsm.TimerDue, Fsm.Awake, Fsm.Quiet, Escalation.Noted, Escalation.Consistent;
    var holding := Holding(m.axis, setup);
    var after := Behaved(m, want, ends, now, setup);
    BehavedKeeps(m, want, ends, now, setup);
    if !holding && TimesOut(m.watch, now, setup.limits) {
      Fsm.TimeOutIsReported(m.watch, now, ends, setup.limits);
      TimeOutRaisesTheAlarm(m, want, ends, now, setup);
    } else {
      Fsm.TickIsQuiet(m.watch, holding, now, ends, setup.limits);
      Fsm.TickNames(m.watch, holding, now, ends, setup.limits);
      Fsm.TickAndFailsafe(m.watch, holding, now, ends, setup.limits);
      if after.watch.state != m.watch.state && after.watch.state != Fsm.FAILSAFE {
        QuietNoted(m, after.watch, now, setup);
      }
    }
  }

  lemma QuietNoted(m: Machine, v: Fsm.Watch, now: int, setup: Setup)
    requires Fsm.Quiet(v, m.watch.state) && v.state != m.watch.state && v.trigger != Some(LINK_LOST)
    ensures v.trigger.Some? && Escalation.Noted(m.axis, v.trigger.value, true, now, setup.timing) == m.axis
  {
  }

  predicate Walks(intent: Commander.Intent) {
    intent.kind == Commander.MOVE && intent != STAND
  }

  /** Over any run: no tick leaves a robot that an alarm holds with an intent to walk. */
  lemma NoWalkUnderAlarm(m: Machine, steps: seq<Step>, want: Commander.Intent, ends: bool, now: int, setup: Setup)
    requires Coupled(m) && WaitsInGuard(m)
    ensures var after := Behaved(Run(m, steps, setup), want, ends, now, setup);
            Holding(after.axis, setup) ==> !Walks(after.intent)
  {
    hide Run, Behaved, Coupled, WaitsInGuard;
    RunKeeps(m, steps, setup);
    RunWaits(m, steps, setup);
    AlarmWithoutStopIff(Run(m, steps, setup), want, ends, now, setup);
  }

  /** Nobody answers: the alarm is latched and the repeated intent is that of a standing robot, not STOP. */
  lemma AlarmWithoutStop(want: Commander.Intent, ends: bool, setup: Setup)
    requires setup.limits.holdOnAlarm
    ensures var waiting := Fsm.AWAKE.(state := Fsm.AUTH_WAIT, known := Fsm.AUTH_WAIT, since := Some(0));
            var m := Machine(Escalation.CALM, waiting, STAND, false, GUARD);
            var after := Behaved(m, want, ends, setup.limits.authTimeout, setup);
            Coupled(m) && WaitsInGuard(m) && Holding(after.axis, setup) && after.watch.state == Fsm.ALERT
            && after.intent == STAND
  {
    var waiting := Fsm.AWAKE.(state := Fsm.AUTH_WAIT, known := Fsm.AUTH_WAIT, since := Some(0));
    var m := Machine(Escalation.CALM, waiting, STAND, false, GUARD);
    AlarmWithoutStopIff(m, want, ends, setup.limits.authTimeout, setup);
    Fsm.TimeOutIsReported(waiting, setup.limits.authTimeout, ends, setup.limits);
    hide Fsm.Ticked, Fsm.Watched;
  }

  /** The next tick leaves STOP in any case. */
  lemma AlarmStopsByTheNextTick(m: Machine, want: Commander.Intent, ends: bool, now: int, setup: Setup)
    requires Coupled(m) && Holding(Behaved(m, want, ends, now, setup).axis, setup)
    ensures forall want', ends', now' ::
              Behaved(Behaved(m, want, ends, now, setup), want', ends', now', setup).intent == Commander.HALT
  {
    hide Behaved;
    BehavedKeeps(m, want, ends, now, setup);
    var after := Behaved(m, want, ends, now, setup);
    forall want', ends', now'
      ensures Behaved(after, want', ends', now', setup).intent == Commander.HALT
    {
      BehavedKeeps(after, want', ends', now', setup);
    }
  }

  /** While an alarm holds the robot, an event moves it only into FAILSAFE, out of it, or into and out of MANUAL. */
  lemma AlarmHoldsTheRobot(m: Machine, event: Event, now: int, setup: Setup)
    requires Coupled(m) && Holding(m.axis, setup) && Applied(m, event, now, setup).watch.state != m.watch.state
    ensures var to := Applied(m, event, now, setup).watch.state;
            to == Fsm.FAILSAFE || to == Fsm.MANUAL || (to == Fsm.IDLE && m.watch.state in {Fsm.FAILSAFE, Fsm.MANUAL})
  {
    hide Escalation.Noted;
  }

  // ----- the objects -----

  /** What the polls inside a tick may do: anything but hear from the robot or tick again. */
  predicate Polled(step: Step) {
    !step.Report? && !step.Ack? && !step.Behave?
  }

  lemma PollKeeps(m: Machine, step: Step, setup: Setup)
    requires Coupled(m) && Polled(step)
    ensures Coupled(After(m, step, setup)) && After(m, step, setup).watch.lastTelemetry == m.watch.lastTelemetry
  {
    hide Applied, AlarmConfirmed, Escalation.Noted;
    match step
    case Event(event, now) => AppliedKeeps(m, event, now, setup);
    case ConfirmAlarm(zone, fall, now) => ConfirmedKeeps(m, zone, fall, now, setup);
    case _ => AxisStepKeeps(m, step, setup);
  }

  class Runtime {
    const setup: Setup
    const axis: Escalation.Escalation
    const behavior: Fsm.Behavior
    const commander: Commander.Commander
    var resetPending: bool
    var mode: Mode

    ghost predicate Valid() {
      && axis.timing == setup.timing && behavior.limits == setup.limits
      && behavior.commander == commander && commander.period > 0
    }

    function Abs(): Machine
      reads this, axis, behavior, behavior.fsm, commander
    {
      Machine(axis.Abs(), behavior.Abs(), commander.intent, resetPending, mode)
    }

    constructor (setup: Setup, period: int, mode: Mode)
      requires period > 0 && setup.limits.linkLoss > 0 && setup.limits.targetLost > 0
      ensures Valid() && fresh(axis) && fresh(behavior) && fresh(behavior.fsm) && fresh(commander)
      ensures this.setup == setup && Abs() == Machine(Escalation.CALM, Fsm.AWAKE, Commander.HALT, false, mode)
      ensures Coupled(Abs()) && WaitsInGuard(Abs())
    {
      this.setup, this.mode, resetPending := setup, mode, false;
      axis := new Escalation.Escalation(setup.timing);
      var sender := new Commander.Commander(period, 1);
      commander := sender;
      behavior := new Fsm.Behavior(sender, setup.limits);
    }

    /** `_apply` */
    method Apply(event: Event, now: int) returns (accepted: bool)
      requires Valid()
      modifies axis, behavior, behavior.fsm, commander`intent
      ensures Abs() == Applied(old(Abs()), event, now, setup)
      ensures accepted <==> behavior.fsm.state != old(behavior.fsm.state)
    {
      hide Escalation.Noted, Fsm.Told, Allows, Holding;
      if setup.motionLock && event == START_PATROL {
        return false;
      }
      if !Allows(mode, event) {
        return false;
      }
      accepted := PassOn(event, now);
    }

    method PassOn(event: Event, now: int) returns (accepted: bool)
      requires Valid() && Admitted(Abs(), event, setup)
      modifies axis, behavior, behavior.fsm, commander`intent
      ensures Abs() == Applied(old(Abs()), event, now, setup)
      ensures accepted <==> behavior.fsm.state != old(behavior.fsm.state)
    {
      hide Escalation.Noted, Fsm.Told, Allows, Holding;
      accepted := TellBoth(event, now);
      if Holding(axis.Abs(), setup) {
        commander.Stand();
      }
    }

    method TellBoth(event: Event, now: int) returns (accepted: bool)
      requires Valid()
      modifies axis, behavior, behavior.fsm
      ensures behavior.Abs() == Fsm.Told(old(behavior.Abs()), event, Holding(old(axis.Abs()), setup), Some(now))
      ensures accepted <==> behavior.fsm.state != old(behavior.fsm.state)
      ensures axis.Abs() == Escalation.Noted(old(axis.Abs()), event, accepted, now, setup.timing)
    {
      hide Escalation.Noted, Fsm.Told, Holding;
      accepted := behavior.Tell(event, Holding(axis.Abs(), setup), Some(now));
      axis.NoteEvent(event, accepted, now);
    }

    /** `_settle_reset` */
    method SettleReset(latched: Option<bool>, now: int)
      requires Valid()
      modifies this`resetPending, axis, behavior, behavior.fsm, commander
      ensures Abs() == ResetSettled(old(Abs()), latched, now, setup)
      ensures commander.pending == old(commander.pending) + Straightened(old(resetPending), resetPending)
    {
      hide Applied;
      if !resetPending || latched != Some(false) {
        return;
      }
      if behavior.fsm.state == Fsm.FAILSAFE {
        var accepted := Apply(RESET_CONFIRMED, now);
        if !accepted {
          return;
        }
      }
      resetPending := false;
      commander.SendOnce(Commander.Intent(Commander.POSE, []));
    }

    /** A settled reset sends the robot back to its neutral pose, which it refused while latched. */
    function Straightened(pending: bool, after: bool): seq<Commander.Intent> {
      if pending && !after then [Commander.Intent(Commander.POSE, [])] else []
    }

    method HearReport(latched: Option<bool>, now: int)
      requires Valid()
      modifies this`resetPending, axis, behavior, behavior.fsm, commander
      ensures Abs() == Reported(old(Abs()), latched, now, setup)
      ensures commander.pending == old(commander.pending) + Straightened(old(resetPending), resetPending)
    {
      hide ResetSettled;
      behavior.NoteTelemetry(now);
      behavior.NoteRobotLatch(latched);
      SettleReset(latched, now);
    }

    method HearAck(latched: Option<bool>, now: int)
      requires Valid()
      modifies this`resetPending, axis, behavior, behavior.fsm, commander
      ensures Abs() == Acknowledged(old(Abs()), latched, now, setup)
      ensures commander.pending == old(commander.pending) + Straightened(old(resetPending), resetPending)
    {
      hide ResetSettled;
      behavior.NoteTelemetry(now);
      if latched.Some? {
        behavior.NoteRobotLatch(latched);
        SettleReset(latched, now);
      }
    }

    /** `confirm_alarm` */
    method ConfirmTheAlarm(zone: bool, fall: bool, now: int) returns (released: bool)
      requires Valid()
      modifies axis, behavior, behavior.fsm, commander`intent
      ensures Abs() == AlarmConfirmed(old(Abs()), zone, fall, now, setup)
      ensures released <==> old(axis.level) == Escalation.L3
    {
      hide Applied;
      var held := Holding(axis.Abs(), setup);
      released := axis.ConfirmAlarmSeen(now);
      if released {
        if zone {
          var accepted := Apply(ZONE_ALARM_CONFIRMED, now);
        } else if fall {
          var accepted := Apply(FALL_RESOLVED, now);
          axis.NoteFallSuspect(false, now);
        }
      }
      if released && held {
        var accepted := Apply(ALARM_CONFIRMED, now);
      }
    }

    /** The behaviour tick, and what it made happen told to the level. */
    method Behave(want: Commander.Intent, ends: bool, now: int) returns (lines: seq<Commander.Line>)
      requires Valid()
      modifies axis, behavior, behavior.fsm, commander
      ensures Abs() == Behaved(old(Abs()), want, ends, now, setup)
      ensures commander.announced == Some(Fsm.Number(behavior.fsm.state))
      ensures lines != [] ==> lines[|lines| - 1].intent == commander.intent
      ensures lines == [] <==> !Commander.Due(old(commander.nextDue), now)
    {
      hide Fsm.Ticked, Fsm.Watched, Escalation.Noted, Sequenced;
      var before, inMode := behavior.fsm.state, mode;
      lines := behavior.Tick(now, Holding(axis.Abs(), setup), (state: Fsm.State) => Sequenced(state, inMode, want), ends);
      if behavior.fsm.state != before && behavior.trigger.Some? {
        axis.NoteEvent(behavior.trigger.value, true, now);
      }
    }

    /** Any other single step. */
    method Poll(step: Step)
      requires Valid() && Polled(step)
      modifies this, axis, behavior, behavior.fsm, commander
      ensures Abs() == After(old(Abs()), step, setup)
      ensures commander.nextDue == old(commander.nextDue)
    {
      hide Applied, AlarmConfirmed, Escalation.Noted, Escalation.Ticked, Fsm.Told;
      match step
      case Event(event, now) => var accepted := Apply(event, now);
      case Person(present, seen, now) => axis.NotePerson(present, seen, now);
      case Fall(active, now) => axis.NoteFallSuspect(active, now);
      case Authenticate(now) => axis.NoteAuthenticated(now);
      case AuthenticationLost => axis.NoteAuthenticationLost();
      case Settle(now) => axis.SettlePpe(now);
      case PassTime(now, requireAuth) => axis.PassTime(now, requireAuth);
      case StandDown(now) => axis.StandDownNow(now);
      case Target(now) => behavior.NoteTarget(now);
      case Defer(span, cap) => var granted := behavior.DeferTimer(span, cap);
      case Steer(intent) => commander.intent := intent;
      case RequestReset => RequestTheReset();
      case SwitchMode(to) => if behavior.fsm.state == Fsm.IDLE || behavior.fsm.state == Fsm.MANUAL { mode := to; }
      case ConfirmAlarm(zone, fall, now) => var released := ConfirmTheAlarm(zone, fall, now);
    }

    method RequestTheReset()
      modifies this`resetPending, commander
      ensures resetPending && commander.intent == Commander.HALT && commander.nextDue == old(commander.nextDue)
      ensures commander.pending == old(commander.pending) + [Commander.Intent(Commander.RESET_SAFE, [])]
    {
      resetPending := true;
      commander.Stand();
      commander.SendOnce(Commander.Intent(Commander.RESET_SAFE, []));
    }

    /** One turn of the loop: the waiting confirmations and requests, the polls, the level's clock, the behaviour. `early`,
        `middle` and `late` are what the polls between the fixed points of a turn happen to find. */
    method Tick(early: seq<Step>, middle: seq<Step>, late: seq<Step>, want: Commander.Intent, ends: bool, now: int)
      returns (lines: seq<Commander.Line>)
      requires Valid() && Coupled(Abs()) && WaitsInGuard(Abs())
      requires forall i :: 0 <= i < |early| ==> Polled(early[i])
      requires forall i :: 0 <= i < |middle| ==> Polled(middle[i])
      requires forall i :: 0 <= i < |late| ==> Polled(late[i])
      modifies this, axis, behavior, behavior.fsm, commander
      ensures Abs() == Behaved(PolledAll(old(Abs()), early, middle, late, now, setup), want, ends, now, setup)
      ensures Coupled(Abs()) && WaitsInGuard(Abs())
      ensures late == [] ==> !WarningOver(Abs(), now)
      ensures commander.announced == Some(Fsm.Number(behavior.fsm.state))
      ensures Holding(axis.Abs(), setup) ==>
                !Walks(commander.intent) && (lines != [] ==> !Walks(lines[|lines| - 1].intent))
      ensures Fsm.Stale(old(behavior.Abs()), now, setup.limits) ==>
                && behavior.fsm.state == Fsm.FAILSAFE && axis.level == Escalation.F && commander.intent == Commander.HALT
                && (lines != [] ==> lines[|lines| - 1].intent == Commander.HALT)
      ensures lines == [] <==> !Commander.Due(old(commander.nextDue), now)
    {
      hide After, Run, Behaved, Escalation.Consistent, Coupled, WaitsInGuard, WarningOver;
      PollTurn(early, middle, late, now);
      PolledNoWarning(old(Abs()), early, middle, late, want, ends, now, setup);
      hide PolledAll;
      BehavedKeeps(Abs(), want, ends, now, setup);
      AlarmWithoutStopIff(Abs(), want, ends, now, setup);
      BehavedWaits(Abs(), want, ends, now, setup);
      lines := Behave(want, ends, now);
      FailsafeIsF(Abs());
    }

    method PollTurn(early: seq<Step>, middle: seq<Step>, late: seq<Step>, now: int)
      requires Valid() && Coupled(Abs()) && WaitsInGuard(Abs())
      requires forall i :: 0 <= i < |early| ==> Polled(early[i])
      requires forall i :: 0 <= i < |middle| ==> Polled(middle[i])
      requires forall i :: 0 <= i < |late| ==> Polled(late[i])
      modifies this, axis, behavior, behavior.fsm, commander
      ensures Abs() == PolledAll(old(Abs()), early, middle, late, now, setup)
      ensures Coupled(Abs()) && WaitsInGuard(Abs()) && behavior.lastTelemetry == old(behavior.lastTelemetry)
      ensures commander.nextDue == old(commander.nextDue)
    {
      hide After, Run, Coupled, WaitsInGuard;
      PollAll(early);
      RunSingle(Abs(), StandDown(now), setup);
      if behavior.fsm.state == Fsm.IDLE || behavior.fsm.state == Fsm.MANUAL {
        PollAll([StandDown(now)]);
      }
      PollAll(middle);
      RunSingle(Abs(), PassTime(now, Enables(mode, AUTH)), setup);
      PollAll([PassTime(now, Enables(mode, AUTH))]);
      PollAll(late);
    }

    method PollAll(steps: seq<Step>)
      requires Valid() && Coupled(Abs()) && WaitsInGuard(Abs()) && forall i :: 0 <= i < |steps| ==> Polled(steps[i])
      modifies this, axis, behavior, behavior.fsm, commander
      ensures Abs() == Run(old(Abs()), steps, setup)
      ensures Coupled(Abs()) && WaitsInGuard(Abs()) && behavior.lastTelemetry == old(behavior.lastTelemetry)
      ensures commander.nextDue == old(commander.nextDue)
    {
      hide After, Coupled, WaitsInGuard;
      ghost var m := Abs();
      assert steps[..0] == [];
      for i := 0 to |steps|
        invariant Abs() == Run(m, steps[..i], setup)
        invariant Coupled(Abs()) && WaitsInGuard(Abs()) && Abs().watch.lastTelemetry == old(behavior.lastTelemetry)
        invariant commander.nextDue == old(commander.nextDue)
      {
        PollKeeps(Abs(), steps[i], setup);
        StepWaits(Abs(), steps[i], setup);
        RunOne(m, steps[..i], steps[i], setup);
        assert steps[..i] + [steps[i]] == steps[..i + 1];
        Poll(steps[i]);
      }
      assert steps[..|steps|] == steps;
    }
  }
}
