/** The behaviour state machine: a table of transitions, and the watchers that feed it from clocks. */
module Fsm {
  import opened Optional
  import opened Events
  import Commander

  datatype State =
    | IDLE | PATROL | SCAN | AVOID | ALERT | TRACK | AUTH_WAIT | MANUAL | FAILSAFE | LOST
    | HAZARD_DISPATCH | HAZARD_SCAN | ZONE_INSPECT

  /** The rows with a source state of their own. */
  function Row(state: State, event: Event): (target: Option<State>)
    ensures target != Some(FAILSAFE) && (AnyRow(event).Some? ==> target.None?)
    ensures state == FAILSAFE ==> (target.Some? <==> event == RESET_CONFIRMED)
  {
    match (state, event)
    case (IDLE, START_PATROL) => Some(PATROL)
    case (PATROL, SCAN_DUE) => Some(SCAN)
    case (SCAN, SCAN_DONE) => Some(PATROL)
    case (PATROL, GOAL_UNREACHABLE) => Some(IDLE)
    case (SCAN, GOAL_UNREACHABLE) => Some(IDLE)
    case (AVOID, GOAL_UNREACHABLE) => Some(IDLE)
    case (LOST, GOAL_UNREACHABLE) => Some(IDLE)
    case (PATROL, ONBOARD_AVOID) => Some(AVOID)
    case (AVOID, AVOID_CLEARED) => Some(PATROL)
    case (PATROL, PERSON_FOUND) => Some(ALERT)
    case (ALERT, TARGET_OFF_CENTER) => Some(TRACK)
    case (TRACK, TARGET_CENTERED) => Some(ALERT)
    case (ALERT, TARGET_LOST) => Some(PATROL)
    case (TRACK, TARGET_LOST) => Some(PATROL)
    case (TRACK, PPE_VIOLATION) => Some(ALERT)
    case (ALERT, PPE_SETTLED) => Some(PATROL)
    case (PATROL, FALL_SUSPECTED) => Some(ALERT)
    case (ZONE_INSPECT, FALL_SUSPECTED) => Some(ALERT)
    case (ALERT, FALL_RESOLVED) => Some(PATROL)
    case (TRACK, FALL_RESOLVED) => Some(PATROL)
    case (ALERT, ALARM_CONFIRMED) => Some(PATROL)
    case (TRACK, ALARM_CONFIRMED) => Some(PATROL)
    case (AUTH_WAIT, ALARM_CONFIRMED) => Some(PATROL)
    case (ALERT, AUTH_REQUIRED) => Some(AUTH_WAIT)
    case (AUTH_WAIT, AUTH_OK) => Some(PATROL)
    case (AUTH_WAIT, AUTH_FAILED) => Some(ALERT)
    case (MANUAL, MANUAL_OFF) => Some(IDLE)
    case (FAILSAFE, RESET_CONFIRMED) => Some(IDLE)
    case (HAZARD_DISPATCH, HAZARD_ARRIVED) => Some(HAZARD_SCAN)
    case (HAZARD_SCAN, HAZARD_SCAN_DONE) => Some(PATROL)
    case (LOST, POSE_REACQUIRED) => Some(PATROL)
    case (PATROL, ZONE_ARRIVED) => Some(ZONE_INSPECT)
    case (ZONE_INSPECT, ZONE_CLEAR) => Some(PATROL)
    case (ZONE_INSPECT, ZONE_CHANGED) => Some(ALERT)
    case (ALERT, ZONE_ALARM_CONFIRMED) => Some(PATROL)
    case (ZONE_INSPECT, PERSON_FOUND) => Some(ALERT)
    case _ => None
  }

  /** The rows that apply in every state. */
  function AnyRow(event: Event): Option<State> {
    match event
    case MANUAL_ON => Some(MANUAL)
    case ONBOARD_FAILSAFE => Some(FAILSAFE)
    case LINK_LOST => Some(FAILSAFE)
    case ESTOP => Some(FAILSAFE)
    case HAZARD_ALARM => Some(HAZARD_DISPATCH)
    case POSE_STALE => Some(LOST)
    case _ => None
  }

  /** `Fsm._target_for`: FAILSAFE takes its one event only, and a transition to the same state is none. */
  function Target(state: State, event: Event): Option<State> {
    if state == FAILSAFE && event != RESET_CONFIRMED then None
    else
      var target := if Row(state, event).Some? then Row(state, event) else AnyRow(event);
      if target == Some(state) then None else target
  }

  datatype Directive = HALT | YIELD | SEQUENCE

  function DirectiveOf(state: State): Directive {
    match state
    case IDLE => HALT
    case FAILSAFE => HALT
    case LOST => HALT
    case MANUAL => YIELD
    case _ => SEQUENCE
  }

  class Fsm {
    var state: State

    constructor ()
      ensures state == IDLE
    {
      state := IDLE;
    }

    method Handle(event: Event) returns (changed: bool)
      modifies this
      ensures changed <==> Target(old(state), event).Some?
      ensures state == Target(old(state), event).GetOr(old(state))
    {
      var target := Target(state, event);
      if target.None? {
        return false;
      }
      state := target.value;
      changed := true;
    }
  }

  /** How FAILSAFE is left and entered: by its one event only; the safety events lead there from everywhere else, nothing else does. */
  lemma FailsafeIsSealed(state: State, event: Event)
    ensures Target(FAILSAFE, event).Some? <==> event == RESET_CONFIRMED
    ensures Target(state, event) == Some(FAILSAFE) <==>
              state != FAILSAFE && (event == ONBOARD_FAILSAFE || event == LINK_LOST || event == ESTOP)
  {
    hide Row;
  }

  /** The states that a sequence of events leads through. */
  function Path(state: State, events: seq<Event>): seq<State>
    decreases |events|
  {
    if events == [] then []
    else
      var next := Target(state, events[0]).GetOr(state);
      [next] + Path(next, events[1..])
  }

  lemma PathOfOne(state: State, a: Event)
    ensures Path(state, [a]) == [Target(state, a).GetOr(state)]
  {
    hide Target;
    assert [a][1..] == [];
  }

  lemma PathOfTwo(state: State, a: Event, b: Event)
    ensures var s := Target(state, a).GetOr(state); Path(state, [a, b]) == [s, Target(s, b).GetOr(s)]
  {
    hide Target;
    assert [a, b][1..] == [b];
    PathOfOne(Target(state, a).GetOr(state), b);
  }

  lemma PathOfThree(state: State, a: Event, b: Event, c: Event)
    ensures var s := Target(state, a).GetOr(state); var t := Target(s, b).GetOr(s);
            Path(state, [a, b, c]) == [s, t, Target(t, c).GetOr(t)]
  {
    hide Target;
    assert [a, b, c][1..] == [b, c];
    PathOfTwo(Target(state, a).GetOr(state), b, c);
  }

  /** The errands of a patrol all lead back to it. */
  lemma PatrolErrands()
    ensures Path(IDLE, [START_PATROL]) == [PATROL]
    ensures Path(PATROL, [SCAN_DUE, SCAN_DONE]) == [SCAN, PATROL]
    ensures Path(PATROL, [ONBOARD_AVOID, AVOID_CLEARED]) == [AVOID, PATROL]
    ensures Path(PATROL, [POSE_STALE, POSE_REACQUIRED]) == [LOST, PATROL]
    ensures Path(PATROL, [ZONE_ARRIVED, ZONE_CLEAR]) == [ZONE_INSPECT, PATROL]
    ensures Path(PATROL, [ZONE_ARRIVED, ZONE_CHANGED, ZONE_ALARM_CONFIRMED]) == [ZONE_INSPECT, ALERT, PATROL]
    ensures Path(PATROL, [HAZARD_ALARM, HAZARD_ARRIVED, HAZARD_SCAN_DONE]) == [HAZARD_DISPATCH, HAZARD_SCAN, PATROL]
    ensures Path(PATROL, [FALL_SUSPECTED, FALL_RESOLVED]) == [ALERT, PATROL]
    ensures Path(PATROL, [GOAL_UNREACHABLE]) == [IDLE]
  {
    SearchTargets();
    AvoidTargets();
    ZoneTargets();
    ChangeTargets();
    HazardTargets();
    FallTargets();
    hide Path, Target;
    PathOfOne(IDLE, START_PATROL);
    PathOfTwo(PATROL, SCAN_DUE, SCAN_DONE);
    PathOfTwo(PATROL, ONBOARD_AVOID, AVOID_CLEARED);
    PathOfTwo(PATROL, POSE_STALE, POSE_REACQUIRED);
    PathOfTwo(PATROL, ZONE_ARRIVED, ZONE_CLEAR);
    PathOfThree(PATROL, ZONE_ARRIVED, ZONE_CHANGED, ZONE_ALARM_CONFIRMED);
    PathOfThree(PATROL, HAZARD_ALARM, HAZARD_ARRIVED, HAZARD_SCAN_DONE);
    PathOfTwo(PATROL, FALL_SUSPECTED, FALL_RESOLVED);
    PathOfOne(PATROL, GOAL_UNREACHABLE);
  }

  /** Meeting a person: following, authentication either way, protective gear, and losing sight. */
  lemma PersonErrands()
    ensures Path(PATROL, [PERSON_FOUND, TARGET_LOST]) == [ALERT, PATROL]
    ensures Path(ALERT, [TARGET_OFF_CENTER, TARGET_CENTERED]) == [TRACK, ALERT]
    ensures Path(ALERT, [TARGET_OFF_CENTER, TARGET_LOST]) == [TRACK, PATROL]
    ensures Path(ALERT, [AUTH_REQUIRED, AUTH_OK]) == [AUTH_WAIT, PATROL]
    ensures Path(ALERT, [AUTH_REQUIRED, AUTH_FAILED, ALARM_CONFIRMED]) == [AUTH_WAIT, ALERT, PATROL]
    ensures Path(TRACK, [PPE_VIOLATION, PPE_SETTLED]) == [ALERT, PATROL]
    ensures Path(ZONE_INSPECT, [PERSON_FOUND]) == [ALERT] && Path(ZONE_INSPECT, [FALL_SUSPECTED]) == [ALERT]
    ensures Path(TRACK, [FALL_RESOLVED]) == [PATROL] && Path(TRACK, [ALARM_CONFIRMED]) == [PATROL]
    ensures Path(AUTH_WAIT, [ALARM_CONFIRMED]) == [PATROL]
  {
    FollowTargets();
    AuthTargets();
    GearTargets();
    ConfirmTargets();
    InspectTargets();
    FallTargets();
    hide Path, Target;
    PathOfTwo(PATROL, PERSON_FOUND, TARGET_LOST);
    PathOfTwo(ALERT, TARGET_OFF_CENTER, TARGET_CENTERED);
    PathOfTwo(ALERT, TARGET_OFF_CENTER, TARGET_LOST);
    PathOfTwo(ALERT, AUTH_REQUIRED, AUTH_OK);
    PathOfThree(ALERT, AUTH_REQUIRED, AUTH_FAILED, ALARM_CONFIRMED);
    PathOfTwo(TRACK, PPE_VIOLATION, PPE_SETTLED);
    PathOfOne(ZONE_INSPECT, PERSON_FOUND);
    PathOfOne(ZONE_INSPECT, FALL_SUSPECTED);
    PathOfOne(TRACK, FALL_RESOLVED);
    PathOfOne(TRACK, ALARM_CONFIRMED);
    PathOfOne(AUTH_WAIT, ALARM_CONFIRMED);
  }

  lemma SearchTargets()
    ensures Target(IDLE, START_PATROL) == Some(PATROL) && Target(PATROL, GOAL_UNREACHABLE) == Some(IDLE)
    ensures Target(PATROL, SCAN_DUE) == Some(SCAN) && Target(SCAN, SCAN_DONE) == Some(PATROL)
  {
  }

  lemma AvoidTargets()
    ensures Target(PATROL, ONBOARD_AVOID) == Some(AVOID) && Target(AVOID, AVOID_CLEARED) == Some(PATROL)
    ensures Target(PATROL, POSE_STALE) == Some(LOST) && Target(LOST, POSE_REACQUIRED) == Some(PATROL)
  {
  }

  lemma ZoneTargets()
    ensures Target(PATROL, ZONE_ARRIVED) == Some(ZONE_INSPECT) && Target(ZONE_INSPECT, ZONE_CLEAR) == Some(PATROL)
  {
  }

  lemma ChangeTargets()
    ensures Target(ZONE_INSPECT, ZONE_CHANGED) == Some(ALERT) && Target(ALERT, ZONE_ALARM_CONFIRMED) == Some(PATROL)
  {
  }

  lemma InspectTargets()
    ensures Target(ZONE_INSPECT, PERSON_FOUND) == Some(ALERT) && Target(ZONE_INSPECT, FALL_SUSPECTED) == Some(ALERT)
  {
  }

  lemma HazardTargets()
    ensures Target(PATROL, HAZARD_ALARM) == Some(HAZARD_DISPATCH) && Target(HAZARD_DISPATCH, HAZARD_ARRIVED) == Some(HAZARD_SCAN)
    ensures Target(HAZARD_SCAN, HAZARD_SCAN_DONE) == Some(PATROL)
  {
  }

  lemma FallTargets()
    ensures Target(PATROL, FALL_SUSPECTED) == Some(ALERT) && Target(ALERT, FALL_RESOLVED) == Some(PATROL)
    ensures Target(TRACK, FALL_RESOLVED) == Some(PATROL)
  {
  }

  lemma FollowTargets()
    ensures Target(PATROL, PERSON_FOUND) == Some(ALERT) && Target(ALERT, TARGET_LOST) == Some(PATROL)
    ensures Target(ALERT, TARGET_OFF_CENTER) == Some(TRACK) && Target(TRACK, TARGET_CENTERED) == Some(ALERT)
  {
  }

  lemma GearTargets()
    ensures Target(TRACK, TARGET_LOST) == Some(PATROL) && Target(TRACK, PPE_VIOLATION) == Some(ALERT)
    ensures Target(ALERT, PPE_SETTLED) == Some(PATROL)
  {
  }

  lemma AuthTargets()
    ensures Target(ALERT, AUTH_REQUIRED) == Some(AUTH_WAIT) && Target(AUTH_WAIT, AUTH_OK) == Some(PATROL)
    ensures Target(AUTH_WAIT, AUTH_FAILED) == Some(ALERT)
  {
  }

  lemma ConfirmTargets()
    ensures Target(ALERT, ALARM_CONFIRMED) == Some(PATROL) && Target(TRACK, ALARM_CONFIRMED) == Some(PATROL)
    ensures Target(AUTH_WAIT, ALARM_CONFIRMED) == Some(PATROL)
  {
  }

  lemma RestTargets()
    ensures Target(MANUAL, MANUAL_OFF) == Some(IDLE) && Target(FAILSAFE, RESET_CONFIRMED) == Some(IDLE)
  {
  }

  /** From every state but FAILSAFE the operator takes over and the robot may get lost or be sent to a hazard; the operator's
      leaving, and the reset, end at rest. */
  lemma FromEverywhere(state: State)
    requires state != FAILSAFE
    ensures Target(state, MANUAL_ON).GetOr(state) == MANUAL && Target(state, POSE_STALE).GetOr(state) == LOST
    ensures Target(state, HAZARD_ALARM).GetOr(state) == HAZARD_DISPATCH
    ensures Target(MANUAL, MANUAL_OFF) == Some(IDLE) && Target(FAILSAFE, RESET_CONFIRMED) == Some(IDLE)
  {
    RestTargets();
    hide Row;
  }

  /** A transition changes the state, and an unreachable goal ends an errand exactly where one is under way. */
  lemma TransitionsChange(state: State, event: Event)
    ensures Target(state, event) != Some(state)
    ensures Target(state, GOAL_UNREACHABLE) == if state in {PATROL, SCAN, AVOID, LOST} then Some(IDLE) else None
  {
    UnreachableTargets(state);
    hide Row;
  }

  lemma UnreachableTargets(state: State)
    ensures Target(state, GOAL_UNREACHABLE) == if state in {PATROL, SCAN, AVOID, LOST} then Some(IDLE) else None
  {
  }

  // ----- the watchers -----

  datatype Limits = Limits(linkLoss: int, targetLost: int, scanInterval: int, scanDuration: int, authTimeout: int,
                           holdOnAlarm: bool)

  function Timer(state: State, limits: Limits): Option<(Event, int)> {
    match state
    case PATROL => Some((SCAN_DUE, limits.scanInterval))
    case SCAN => Some((SCAN_DONE, limits.scanDuration))
    case AUTH_WAIT => Some((AUTH_FAILED, limits.authTimeout))
    case _ => None
  }

  datatype Watch = Watch(state: State, known: State, since: Option<int>, fired: set<State>, deferred: int,
                         lastTelemetry: Option<int>, lastTarget: Option<int>, robotLatched: Option<bool>,
                         trigger: Option<Event>)

  const AWAKE := Watch(IDLE, IDLE, None, {}, 0, None, None, None, None)

  function Marked(w: Watch, now: Option<int>): Watch {
    if w.state == w.known then w else w.(known := w.state, since := now, fired := {}, deferred := 0)
  }

  /** While an alarm holds the robot, only safety and the operator move the machine. */
  predicate Passes(event: Event, holding: bool) {
    !holding || event in {ONBOARD_FAILSAFE, LINK_LOST, ESTOP, RESET_CONFIRMED, MANUAL_ON, MANUAL_OFF}
  }

  function Handled(w: Watch, event: Event, holding: bool, now: Option<int>): Watch {
    if !Passes(event, holding) || Target(w.state, event).None? then w
    else Marked(w.(state := Target(w.state, event).value, trigger := Some(event)), now)
  }

  function Told(w: Watch, event: Event, holding: bool, now: Option<int>): Watch {
    if event == RESET_CONFIRMED && w.robotLatched == Some(true) then w else Handled(w, event, holding, now)
  }

  predicate Stale(w: Watch, now: int, limits: Limits) {
    w.lastTelemetry.Some? && now - w.lastTelemetry.value >= limits.linkLoss
  }

  function LinksWatched(w: Watch, holding: bool, now: int, limits: Limits): Watch {
    if Stale(w, now, limits) then Handled(w, LINK_LOST, holding, Some(now)) else w
  }

  function TargetWatched(w: Watch, holding: bool, now: int, limits: Limits): Watch {
    if w.lastTarget.None? || Target(w.state, TARGET_LOST).None? || now - w.lastTarget.value < limits.targetLost then w
    else
      var lost := Handled(w, TARGET_LOST, holding, Some(now));
      if lost.state != w.state then lost.(lastTarget := None) else lost
  }

  predicate TimerDue(w: Watch, now: int, limits: Limits) {
    && Timer(w.state, limits).Some? && w.since.Some? && w.state !in w.fired
    && now - w.since.value >= Timer(w.state, limits).value.1 + w.deferred
  }

  function TimersWatched(w: Watch, holding: bool, now: int, limits: Limits): Watch {
    if !TimerDue(w, now, limits) then w
    else Handled(w.(fired := w.fired + {w.state}), Timer(w.state, limits).value.0, holding, Some(now))
  }

  /** A tick first sees to it that the present stay has a beginning. */
  function Awake(w: Watch, now: int): Watch {
    Marked(if w.since.None? then w.(since := Some(now)) else w, Some(now))
  }

  function Watched(w: Watch, holding: bool, now: int, limits: Limits): Watch {
    TimersWatched(TargetWatched(LinksWatched(Awake(w, now), holding, now, limits), holding, now, limits), holding, now, limits)
  }

  /** A tick; `ends` says whether the state's own sequence reports its goal unreachable meanwhile. */
  function Ticked(w: Watch, holding: bool, now: int, ends: bool, limits: Limits): Watch {
    var v := Watched(w, holding, now, limits);
    if ends && !holding && DirectiveOf(v.state) == SEQUENCE then Told(v, GOAL_UNREACHABLE, holding, Some(now)) else v
  }

  /** The repeated intent a tick leaves, if the sequence of each state would set `drive` of it. */
  function Directed(w: Watch, holding: bool, intent: Commander.Intent, drive: State -> Commander.Intent): Commander.Intent {
    if holding || DirectiveOf(w.state) == HALT then Commander.HALT
    else if DirectiveOf(w.state) == SEQUENCE then drive(w.state)
    else intent
  }

  function Deferred(w: Watch, span: int, cap: int): Watch {
    if span <= 0 || cap <= 0 then w
    else
      var granted := if span < cap - w.deferred then span else cap - w.deferred;
      if granted <= 0 then w else w.(deferred := w.deferred + granted)
  }

  class Behavior {
    const fsm: Fsm
    const commander: Commander.Commander
    const limits: Limits
    var known: State
    var since: Option<int>
    var fired: set<State>
    var deferred: int
    var lastTelemetry: Option<int>
    var lastTarget: Option<int>
    var robotLatched: Option<bool>
    var trigger: Option<Event>

    function Abs(): Watch
      reads this, fsm
    {
      Watch(fsm.state, known, since, fired, deferred, lastTelemetry, lastTarget, robotLatched, trigger)
    }

    constructor (commander: Commander.Commander, limits: Limits)
      requires limits.linkLoss > 0 && limits.targetLost > 0
      ensures Abs() == AWAKE && fresh(fsm) && this.commander == commander && this.limits == limits
    {
      fsm := new Fsm();
      this.commander, this.limits := commander, limits;
      known, since, fired, deferred, lastTelemetry, lastTarget, robotLatched, trigger :=
        IDLE, None, {}, 0, None, None, None, None;
    }

    method NoteTelemetry(now: int)
      modifies this`lastTelemetry
      ensures Abs() == old(Abs()).(lastTelemetry := Some(now))
    {
      lastTelemetry := Some(now);
    }

    method NoteRobotLatch(latched: Option<bool>)
      modifies this`robotLatched
      ensures Abs() == old(Abs()).(robotLatched := latched)
    {
      robotLatched := latched;
    }

    method NoteTarget(now: int)
      modifies this`lastTarget
      ensures Abs() == old(Abs()).(lastTarget := Some(now))
    {
      lastTarget := Some(now);
    }

    method MarkState(now: Option<int>)
      modifies this
      ensures Abs() == Marked(old(Abs()), now)
    {
      if fsm.state == known {
        return;
      }
      known := fsm.state;
      since := now;
      fired := {};
      deferred := 0;
    }

    method Handle(event: Event, holding: bool, now: Option<int>) returns (changed: bool)
      modifies this, fsm
      ensures Abs() == Handled(old(Abs()), event, holding, now) && (changed <==> fsm.state != old(fsm.state))
      ensures old(fsm.state) == FAILSAFE && event != RESET_CONFIRMED ==> Abs() == old(Abs())
      ensures changed ==> trigger == Some(event) && (fsm.state == FAILSAFE <==> Safety(event))
    {
      HandledAndFailsafe(Abs(), event, holding, now);
      FailsafeIsSealed(fsm.state, event);
      hide Row;
      if holding && event !in {ONBOARD_FAILSAFE, LINK_LOST, ESTOP, RESET_CONFIRMED, MANUAL_ON, MANUAL_OFF} {
        return false;
      }
      changed := fsm.Handle(event);
      if changed {
        trigger := Some(event);
        MarkState(now);
      }
    }

    method Tell(event: Event, holding: bool, now: Option<int>) returns (changed: bool)
      modifies this, fsm
      ensures Abs() == Told(old(Abs()), event, holding, now) && (changed <==> fsm.state != old(fsm.state))
      ensures old(fsm.state) == FAILSAFE && changed ==> event == RESET_CONFIRMED && old(robotLatched) != Some(true)
      ensures Safety(event) ==> fsm.state == FAILSAFE
    {
      HandledAndFailsafe(Abs(), event, holding, now);
      hide Handled, Target;
      if event == RESET_CONFIRMED && robotLatched == Some(true) {
        return false;
      }
      changed := Handle(event, holding, now);
    }

    method WatchLinks(holding: bool, now: int)
      modifies this, fsm
      ensures Abs() == LinksWatched(old(Abs()), holding, now, limits)
      ensures Stale(old(Abs()), now, limits) ==> fsm.state == FAILSAFE
    {
      if lastTelemetry.Some? && now - lastTelemetry.value >= limits.linkLoss {
        var changed := Handle(LINK_LOST, holding, Some(now));
      }
    }

    method WatchTarget(holding: bool, now: int)
      modifies this, fsm
      ensures Abs() == TargetWatched(old(Abs()), holding, now, limits)
      ensures fsm.state != old(fsm.state) ==> lastTarget.None? && trigger == Some(TARGET_LOST)
    {
      if lastTarget.None? || Target(fsm.state, TARGET_LOST).None? || now - lastTarget.value < limits.targetLost {
        return;
      }
      var changed := Handle(TARGET_LOST, holding, Some(now));
      if changed {
        lastTarget := None;
      }
    }

    method WatchTimers(holding: bool, now: int)
      modifies this, fsm
      ensures Abs() == TimersWatched(old(Abs()), holding, now, limits)
      ensures fsm.state != old(fsm.state) ==> TimerDue(old(Abs()), now, limits)
      ensures fsm.state == old(fsm.state) ==> !TimerDue(Abs(), now, limits)
    {
      var entry := Timer(fsm.state, limits);
      if entry.None? || since.None? || fsm.state in fired {
        return;
      }
      if now - since.value < entry.value.1 + deferred {
        return;
      }
      fired := fired + {fsm.state};
      var changed := Handle(entry.value.0, holding, Some(now));
    }

    method DeferTimer(span: int, cap: int) returns (granted: int)
      modifies this`deferred
      ensures Abs() == Deferred(old(Abs()), span, cap) && granted == deferred - old(deferred)
      ensures granted >= 0 && (granted > 0 ==> granted <= span && deferred <= cap)
    {
      if span <= 0 || cap <= 0 {
        return 0;
      }
      granted := if span < cap - deferred then span else cap - deferred;
      if granted <= 0 {
        return 0;
      }
      deferred := deferred + granted;
    }

    /** The watchers, in their order: safety first. */
    method WatchAll(holding: bool, now: int)
      modifies this, fsm
      ensures Abs() == Watched(old(Abs()), holding, now, limits)
    {
      hide LinksWatched, TargetWatched, TimersWatched;
      if since.None? {
        since := Some(now);
      }
      MarkState(Some(now));
      WatchLinks(holding, now);
      WatchTarget(holding, now);
      WatchTimers(holding, now);
    }

    /** What went out is what was queued, the state if it is news, and the intent. */
    ghost predicate Announced(s: Commander.Sender, intent: Commander.Intent, state: int, now: int, lines: seq<Commander.Line>) {
      lines == Commander.Lines(Commander.After(s.(intent := intent), commander.period, Commander.Announce(state)),
                               Commander.Tick(now))
    }

    /** Links, target and timers, then the directive of the state, then the sender's tick. The sequence of a state leaves
        the intent that `drive` says, and may report its goal unreachable. */
    method Tick(now: int, holding: bool, drive: State -> Commander.Intent, ends: bool) returns (lines: seq<Commander.Line>)
      requires commander.period > 0
      modifies this, fsm, commander
      ensures Abs() == Ticked(old(Abs()), holding, now, ends, limits)
      ensures commander.intent == Directed(Watched(old(Abs()), holding, now, limits), holding, old(commander.intent), drive)
      ensures lines != [] ==> lines[|lines| - 1].intent == commander.intent
      ensures lines == [] <==> !Commander.Due(old(commander.nextDue), now)
      ensures commander.announced == Some(Number(fsm.state))
      ensures Announced(old(commander.Abs()), commander.intent, Number(fsm.state), now, lines)
    {
      hide Watched, Told;
      WatchAll(holding, now);
      var directive := DirectiveOf(fsm.state);
      if holding || directive == HALT {
        commander.Stand();
      } else if directive == SEQUENCE {
        commander.intent := drive(fsm.state);
        if ends {
          var changed := Tell(GOAL_UNREACHABLE, holding, Some(now));
        }
      }
      commander.AnnounceState(Number(fsm.state));
      Commander.TickEndsWithIntent(commander.Abs(), now);
      lines := commander.Fire(now);
    }
  }

  /** The states as they are announced. */
  function Number(state: State): int {
    match state
    case IDLE => 0
    case PATROL => 1
    case SCAN => 2
    case AVOID => 3
    case ALERT => 4
    case TRACK => 5
    case AUTH_WAIT => 6
    case MANUAL => 7
    case FAILSAFE => 8
    case LOST => 9
    case HAZARD_DISPATCH => 10
    case HAZARD_SCAN => 11
    case ZONE_INSPECT => 12
  }

  lemma NumbersTellApart(s: State, t: State)
    requires Number(s) == Number(t)
    ensures s == t
  {
  }

  // ----- what a tick guarantees -----

  predicate Safety(event: Event) {
    event == ONBOARD_FAILSAFE || event == LINK_LOST || event == ESTOP
  }

  lemma HandledAndFailsafe(w: Watch, event: Event, holding: bool, now: Option<int>)
    ensures w.state == FAILSAFE && event != RESET_CONFIRMED ==> Handled(w, event, holding, now) == w
    ensures Safety(event) ==> Handled(w, event, holding, now).state == FAILSAFE
    ensures Handled(w, event, holding, now).state == FAILSAFE && w.state != FAILSAFE ==>
              Safety(event) && Handled(w, event, holding, now).trigger == Some(event)
  {
    hide Target;
    FailsafeIsSealed(w.state, event);
  }

  /** The watchers end in FAILSAFE exactly if the tick began there or found the telemetry stale. */
  lemma WatchedAndFailsafe(w: Watch, holding: bool, now: int, limits: Limits)
    ensures Watched(w, holding, now, limits).state == FAILSAFE <==> w.state == FAILSAFE || Stale(w, now, limits)
    ensures w.state != FAILSAFE && Stale(w, now, limits) ==> Watched(w, holding, now, limits).trigger == Some(LINK_LOST)
  {
    hide Handled, Row;
    var awake := Awake(w, now);
    var linked := LinksWatched(awake, holding, now, limits);
    HandledAndFailsafe(awake, LINK_LOST, holding, Some(now));
    HandledAndFailsafe(linked, TARGET_LOST, holding, Some(now));
    var targeted := TargetWatched(linked, holding, now, limits);
    if Timer(targeted.state, limits).Some? {
      HandledAndFailsafe(targeted.(fired := targeted.fired + {targeted.state}), Timer(targeted.state, limits).value.0,
                         holding, Some(now));
    }
  }

  /** A tick that finds the telemetry stale ends in FAILSAFE, with STOP as the repeated intent, whatever the state, an alarm
      or the sequences were up to. */
  lemma StaleTickStops(w: Watch, holding: bool, now: int, ends: bool, limits: Limits, intent: Commander.Intent,
                       drive: State -> Commander.Intent)
    requires Stale(w, now, limits)
    ensures Ticked(w, holding, now, ends, limits).state == FAILSAFE
    ensures Directed(Watched(w, holding, now, limits), holding, intent, drive) == Commander.HALT
  {
    hide Watched;
    WatchedAndFailsafe(w, holding, now, limits);
  }

  /** A tick never leaves FAILSAFE, and enters it only on a lost link, which it then names as the trigger. */
  lemma TickAndFailsafe(w: Watch, holding: bool, now: int, ends: bool, limits: Limits)
    ensures w.state == FAILSAFE ==> Ticked(w, holding, now, ends, limits).state == FAILSAFE
    ensures Ticked(w, holding, now, ends, limits).state == FAILSAFE && w.state != FAILSAFE ==>
              Stale(w, now, limits) && Ticked(w, holding, now, ends, limits).trigger == Some(LINK_LOST)
  {
    hide Watched, Handled;
    WatchedAndFailsafe(w, holding, now, limits);
    HandledAndFailsafe(Watched(w, holding, now, limits), GOAL_UNREACHABLE, holding, Some(now));
  }

  /** The states a tick passes through: links, target and timers may each move the machine once. */
  function Visited(w: Watch, holding: bool, now: int, limits: Limits): set<State> {
    var awake := Awake(w, now);
    var linked := LinksWatched(awake, holding, now, limits);
    var targeted := TargetWatched(linked, holding, now, limits);
    {w.state, linked.state, targeted.state, TimersWatched(targeted, holding, now, limits).state}
  }

  /** A state other than `start` was reached by the transition the trigger names, from one of the states passed through. */
  predicate Named(v: Watch, visited: set<State>, start: State) {
    v.state != start ==> v.trigger.Some? && exists s :: s in visited && Target(s, v.trigger.value) == Some(v.state)
  }

  lemma HandledNames(v: Watch, visited: set<State>, start: State, event: Event, holding: bool, now: Option<int>)
    requires Named(v, visited, start) && v.state in visited
    ensures Named(Handled(v, event, holding, now), visited, start)
  {
    hide Target;
  }

  lemma TickNames(w: Watch, holding: bool, now: int, ends: bool, limits: Limits)
    ensures Named(Ticked(w, holding, now, ends, limits), Visited(w, holding, now, limits), w.state)
    ensures var v := Ticked(w, holding, now, ends, limits);
            v.state != w.state ==> v.trigger.Some? && (Safety(v.trigger.value) ==> v.state == FAILSAFE)
  {
    var visited := Visited(w, holding, now, limits);
    hide Handled, Target, Safety, Named;
    var awake := Awake(w, now);
    var linked := LinksWatched(awake, holding, now, limits);
    var targeted := TargetWatched(linked, holding, now, limits);
    var timing := targeted.(fired := targeted.fired + {targeted.state});
    var timed := TimersWatched(targeted, holding, now, limits);
    NamedAtStart(awake, visited, w.state);
    HandledNames(awake, visited, w.state, LINK_LOST, holding, Some(now));
    var lost := Handled(linked, TARGET_LOST, holding, Some(now));
    HandledNames(linked, visited, w.state, TARGET_LOST, holding, Some(now));
    NamedByStateAndTrigger(lost, lost.(lastTarget := None), visited, w.state);
    NamedByStateAndTrigger(targeted, timing, visited, w.state);
    if Timer(targeted.state, limits).Some? {
      HandledNames(timing, visited, w.state, Timer(targeted.state, limits).value.0, holding, Some(now));
    }
    HandledNames(timed, visited, w.state, GOAL_UNREACHABLE, holding, Some(now));
    SafetyIsNamed(Ticked(w, holding, now, ends, limits), visited, w.state);
  }

  lemma SafetyIsNamed(v: Watch, visited: set<State>, start: State)
    requires Named(v, visited, start)
    ensures v.state != start ==> v.trigger.Some? && (Safety(v.trigger.value) ==> v.state == FAILSAFE)
  {
    hide Target;
    if v.state != start {
      var s :| s in visited && Target(s, v.trigger.value) == Some(v.state);
      FailsafeIsSealed(s, v.trigger.value);
    }
  }

  lemma NamedAtStart(v: Watch, visited: set<State>, start: State)
    requires v.state == start
    ensures Named(v, visited, start)
  {
  }

  lemma NamedByStateAndTrigger(v: Watch, u: Watch, visited: set<State>, start: State)
    requires Named(v, visited, start) && u.state == v.state && u.trigger == v.trigger
    ensures Named(u, visited, start)
  {
  }

  /** The machine's own time-out is never missed: if a tick lets AUTH_WAIT time out, it ends in ALERT and names
      AUTH_FAILED as its trigger, which is what raises the alarm. */
  lemma TimeOutIsReported(w: Watch, now: int, ends: bool, limits: Limits)
    requires w.state == AUTH_WAIT && !Stale(w, now, limits) && TimerDue(Awake(w, now), now, limits)
    ensures Watched(w, false, now, limits).state == ALERT && Ticked(w, false, now, ends, limits).state == ALERT
    ensures Ticked(w, false, now, ends, limits).trigger == Some(AUTH_FAILED)
  {
    WaitingTargets();
    hide Row, AnyRow;
  }

  /** AUTH_WAIT is entered on AUTH_REQUIRED only, and so by no tick. */
  lemma OnlyAsked(state: State, event: Event)
    ensures Target(state, event) == Some(AUTH_WAIT) ==> event == AUTH_REQUIRED
  {
  }

  lemma ToldAndWaiting(w: Watch, event: Event, holding: bool, now: Option<int>)
    ensures Told(w, event, holding, now).state == AUTH_WAIT ==> w.state == AUTH_WAIT || event == AUTH_REQUIRED
  {
    hide Target;
    OnlyAsked(w.state, event);
  }

  lemma TickAndWaiting(w: Watch, holding: bool, now: int, ends: bool, limits: Limits)
    ensures Ticked(w, holding, now, ends, limits).state == AUTH_WAIT ==> w.state == AUTH_WAIT
  {
    hide Ticked, Visited, Stale, TimerDue, Awake, Target;
    var v := Ticked(w, holding, now, ends, limits);
    if v.state == AUTH_WAIT && w.state != AUTH_WAIT {
      TickIsQuiet(w, holding, now, ends, limits);
      TickNames(w, holding, now, ends, limits);
      var s :| s in Visited(w, holding, now, limits) && Target(s, v.trigger.value) == Some(v.state);
      OnlyAsked(s, v.trigger.value);
    }
  }

  lemma WaitingTargets()
    ensures Target(AUTH_WAIT, TARGET_LOST).None? && Target(AUTH_WAIT, AUTH_FAILED) == Some(ALERT)
    ensures Target(ALERT, GOAL_UNREACHABLE).None?
  {
  }

  /** Unless AUTH_WAIT times out, whatever a tick's own transitions are named by is not an authentication failure. */
  predicate Quiet(v: Watch, start: State) {
    v.state != start ==> v.trigger.Some? && v.trigger.value in {LINK_LOST, TARGET_LOST, SCAN_DUE, SCAN_DONE, GOAL_UNREACHABLE}
  }

  lemma HandledQuietly(v: Watch, start: State, event: Event, holding: bool, now: Option<int>)
    requires Quiet(v, start) && event in {LINK_LOST, TARGET_LOST, SCAN_DUE, SCAN_DONE, GOAL_UNREACHABLE}
    ensures Quiet(Handled(v, event, holding, now), start)
  {
    hide Target;
  }

  lemma TickIsQuiet(w: Watch, holding: bool, now: int, ends: bool, limits: Limits)
    requires holding || w.state != AUTH_WAIT || Stale(w, now, limits) || !TimerDue(Awake(w, now), now, limits)
    ensures Quiet(Ticked(w, holding, now, ends, limits), w.state)
  {
    hide Handled, Target, Quiet;
    var awake := Awake(w, now);
    var linked := LinksWatched(awake, holding, now, limits);
    var lost := Handled(linked, TARGET_LOST, holding, Some(now));
    var targeted := TargetWatched(linked, holding, now, limits);
    var timing := targeted.(fired := targeted.fired + {targeted.state});
    QuietByStateAndTrigger(w, awake, w.state);
    HandledQuietly(awake, w.state, LINK_LOST, holding, Some(now));
    HandledQuietly(linked, w.state, TARGET_LOST, holding, Some(now));
    QuietByStateAndTrigger(lost, lost.(lastTarget := None), w.state);
    QuietByStateAndTrigger(targeted, timing, w.state);
    var timed := TimersWatched(targeted, holding, now, limits);
    if targeted.state == AUTH_WAIT {
      StillWaiting(w, holding, now, limits);
      HeldTimer(targeted, timing, holding, now, limits);
      QuietByStateAndTrigger(timing, timed, w.state);
    } else if Timer(targeted.state, limits).Some? {
      HandledQuietly(timing, w.state, Timer(targeted.state, limits).value.0, holding, Some(now));
    }
    HandledQuietly(timed, w.state, GOAL_UNREACHABLE, holding, Some(now));
  }

  lemma QuietByStateAndTrigger(v: Watch, u: Watch, start: State)
    requires (v.state == start || Quiet(v, start)) && u.state == v.state && u.trigger == v.trigger
    ensures Quiet(u, start)
  {
  }

  /** Neither a lost link nor a lost target leads to AUTH_WAIT. */
  lemma StillWaiting(w: Watch, holding: bool, now: int, limits: Limits)
    requires TargetWatched(LinksWatched(Awake(w, now), holding, now, limits), holding, now, limits).state == AUTH_WAIT
    ensures w.state == AUTH_WAIT && !Stale(w, now, limits)
    ensures TargetWatched(LinksWatched(Awake(w, now), holding, now, limits), holding, now, limits) == Awake(w, now)
  {
    hide Timer, Target;
    var awake := Awake(w, now);
    LostIsNotWaiting(awake, LINK_LOST, holding, Some(now));
    LostIsNotWaiting(LinksWatched(awake, holding, now, limits), TARGET_LOST, holding, Some(now));
    HandledAndFailsafe(awake, LINK_LOST, holding, Some(now));
  }

  lemma LostIsNotWaiting(w: Watch, event: Event, holding: bool, now: Option<int>)
    requires event == LINK_LOST || event == TARGET_LOST
    ensures Handled(w, event, holding, now).state == AUTH_WAIT ==> Handled(w, event, holding, now) == w
  {
  }

  lemma HeldTimer(v: Watch, timing: Watch, holding: bool, now: int, limits: Limits)
    requires v.state == AUTH_WAIT && (holding || !TimerDue(v, now, limits)) && timing == v.(fired := v.fired + {v.state})
    ensures TimersWatched(v, holding, now, limits) in {v, timing}
  {
    hide Target;
  }

  /** At rest, in FAILSAFE and when lost a tick leaves STOP; under manual control it leaves the operator's intent; elsewhere
      the sequence of the state decides, unless an alarm holds the robot. */
  lemma DirectiveIs(w: Watch, holding: bool, intent: Commander.Intent, drive: State -> Commander.Intent)
    ensures var after := Directed(w, holding, intent, drive);
            if holding || w.state in {IDLE, FAILSAFE, LOST} then after == Commander.HALT
            else if w.state == MANUAL then after == intent
            else after == drive(w.state)
  {
  }

  /** A patrol stops to scan when its interval is over, and goes on when the scan is; not before, and not while an alarm holds
      the robot. */
  lemma ScanCycle(w: Watch, holding: bool, now: int, limits: Limits)
    requires w.state == w.known && (w.state == PATROL || w.state == SCAN) && w.since.Some? && w.state !in w.fired
    requires !Stale(w, now, limits)
    ensures var span := if w.state == PATROL then limits.scanInterval else limits.scanDuration;
            Watched(w, holding, now, limits).state
            == if !holding && now - w.since.value >= span + w.deferred then (if w.state == PATROL then SCAN else PATROL)
               else w.state
  {
    ScanTargets();
    hide Row, AnyRow;
  }

  lemma ScanTargets()
    ensures Target(PATROL, TARGET_LOST).None? && Target(SCAN, TARGET_LOST).None?
    ensures Target(PATROL, SCAN_DUE) == Some(SCAN) && Target(SCAN, SCAN_DONE) == Some(PATROL)
  {
  }

  /** A target out of sight for long enough ends watching and following it, and only then. */
  lemma LossEndsAlert(w: Watch, holding: bool, now: int, limits: Limits)
    requires w.state == w.known && (w.state == ALERT || w.state == TRACK) && w.since.Some? && w.lastTarget.Some?
    requires !Stale(w, now, limits)
    ensures var after := Watched(w, holding, now, limits);
            (after.state == if !holding && now - w.lastTarget.value >= limits.targetLost then PATROL else w.state)
            || (limits.scanInterval <= 0 && after.state == SCAN)
  {
    LossTargets();
    hide Row, AnyRow;
  }

  lemma LossTargets()
    ensures Target(ALERT, TARGET_LOST) == Some(PATROL) && Target(TRACK, TARGET_LOST) == Some(PATROL)
    ensures Target(PATROL, SCAN_DUE) == Some(SCAN)
  {
  }

  /** The link counts as lost from `linkLoss` after the last sign of life on, and not before; without any it is never lost. */
  lemma LinkLossIff(w: Watch, holding: bool, now: int, limits: Limits)
    requires w.state != FAILSAFE
    ensures Watched(w, holding, now, limits).state == FAILSAFE
            <==> w.lastTelemetry.Some? && now >= w.lastTelemetry.value + limits.linkLoss
  {
    hide Watched;
    WatchedAndFailsafe(w, holding, now, limits);
  }

  /** A reported loss forgets the sighting: another one is reported only after the target was seen again. */
  lemma LossIsForgotten(w: Watch, holding: bool, now: int, limits: Limits)
    requires w.state == w.known && w.state != PATROL && !Stale(w, now, limits)
    ensures var after := TargetWatched(w, holding, now, limits);
            && (after.state != w.state ==> after.lastTarget.None?)
            && (after.state == w.state ==> after == w)
            && (Target(w.state, TARGET_LOST).Some? && !holding && w.lastTarget.Some? && now >= w.lastTarget.value + limits.targetLost
                ==> after.state != w.state)
  {
    TransitionsChange(w.state, TARGET_LOST);
    hide Target;
  }

  /** A sequence that reports its goal unreachable ends the errand in the same tick, unless an alarm holds the robot. */
  lemma UnreachableEndsTheTick(w: Watch, holding: bool, now: int, limits: Limits)
    ensures var (v, after) := (Watched(w, holding, now, limits), Ticked(w, holding, now, true, limits));
            if !holding && v.state in {PATROL, SCAN, AVOID} then after.state == IDLE && after.trigger == Some(GOAL_UNREACHABLE)
            else after == v
    ensures Ticked(w, holding, now, false, limits) == Watched(w, holding, now, limits)
  {
    TransitionsChange(Watched(w, holding, now, limits).state, GOAL_UNREACHABLE);
    hide Watched, Target;
  }

  /** The state the clocks belong to, and the clocks of a stay that begins at `now`. */
  predicate Afresh(w: Watch, now: Option<int>) {
    w.known == w.state && w.since == now && w.fired == {} && w.deferred == 0
  }

  /** Every transition begins a stay afresh: its time counts from then, its timer has not fired and nothing is deferred. */
  lemma StayBeginsAfresh(w: Watch, event: Event, holding: bool, now: Option<int>)
    requires w.known == w.state
    ensures Told(w, event, holding, now).state != w.state ==> Afresh(Told(w, event, holding, now), now)
    ensures Told(w, event, holding, now).state == w.state ==> Told(w, event, holding, now) == w
  {
    TransitionsChange(w.state, event);
    hide Target, Row;
  }

  /** How the clocks stand in a tick at `now` that began in `start`, with the stay's time `since`. */
  predicate Going(start: State, since: Option<int>, v: Watch, now: int) {
    && v.known == v.state && (v.state != start ==> Afresh(v, Some(now)))
    && v.since.Some? && (v.since == Some(now) || v.since == since)
  }

  lemma HandledGoesOn(start: State, since: Option<int>, v: Watch, event: Event, holding: bool, now: int)
    requires Going(start, since, v, now)
    ensures Going(start, since, Handled(v, event, holding, Some(now)), now)
  {
    HandledAfresh(v, event, holding, now);
    hide Handled;
  }

  lemma TimersGoOn(start: State, since: Option<int>, v: Watch, holding: bool, now: int, limits: Limits)
    requires Going(start, since, v, now)
    requires limits.scanInterval > 0 && limits.scanDuration > 0 && limits.authTimeout > 0
    ensures Going(start, since, TimersWatched(v, holding, now, limits), now)
  {
    if TimerDue(v, now, limits) {
      HandledAfresh(v.(fired := v.fired + {v.state}), Timer(v.state, limits).value.0, holding, now);
    }
    hide Handled;
  }

  /** The same over a tick, which also gives a stay that has no beginning yet its own time. */
  lemma TickBeginsAfresh(w: Watch, holding: bool, now: int, ends: bool, limits: Limits)
    requires w.known == w.state && limits.scanInterval > 0 && limits.scanDuration > 0 && limits.authTimeout > 0
    ensures Going(w.state, w.since, Ticked(w, holding, now, ends, limits), now)
  {
    var awake := Awake(w, now);
    var linked := LinksWatched(awake, holding, now, limits);
    var targeted := TargetWatched(linked, holding, now, limits);
    var timed := TimersWatched(targeted, holding, now, limits);
    assert Going(w.state, w.since, awake, now);
    HandledGoesOn(w.state, w.since, awake, LINK_LOST, holding, now);
    HandledGoesOn(w.state, w.since, linked, TARGET_LOST, holding, now);
    hide Handled, Target, Stale, TimersWatched;
    assert Going(w.state, w.since, targeted, now);
    TimersGoOn(w.state, w.since, targeted, holding, now, limits);
    HandledGoesOn(w.state, w.since, timed, GOAL_UNREACHABLE, holding, now);
  }

  lemma HandledAfresh(w: Watch, event: Event, holding: bool, now: int)
    requires w.known == w.state
    ensures Handled(w, event, holding, Some(now)) == w
         || (Afresh(Handled(w, event, holding, Some(now)), Some(now)) && Handled(w, event, holding, Some(now)).state != w.state)
  {
    TransitionsChange(w.state, event);
    hide Target;
  }

  // ----- deferring the time-out -----

  datatype Act =
    | Event(event: Events.Event, now: Option<int>)
    | Tick(at: int, ends: bool)
    | Defer(span: int, cap: int)
    | Heard(at: int)
    | Latch(latched: Option<bool>)
    | Seen(at: int)

  function After(w: Watch, act: Act, holding: bool, limits: Limits): Watch {
    match act
    case Event(event, now) => Told(w, event, holding, now)
    case Tick(at, ends) => Ticked(w, holding, at, ends, limits)
    case Defer(span, cap) => Deferred(w, span, cap)
    case Heard(at) => w.(lastTelemetry := Some(at))
    case Latch(latched) => w.(robotLatched := latched)
    case Seen(at) => w.(lastTarget := Some(at))
  }

  /** A run, with the alarm guard as each act finds it. */
  function Run(w: Watch, acts: seq<(Act, bool)>, limits: Limits): Watch
    decreases |acts|
  {
    if acts == [] then w else Run(After(w, acts[0].0, acts[0].1, limits), acts[1..], limits)
  }

  predicate CapsWithin(acts: seq<(Act, bool)>, cap: int) {
    forall i :: 0 <= i < |acts| && acts[i].0.Defer? ==> acts[i].0.cap <= cap
  }

  lemma DeferralOnlyGrowsByDefer(w: Watch, act: Act, holding: bool, limits: Limits)
    ensures !act.Defer? ==> After(w, act, holding, limits).deferred in {0, w.deferred}
    ensures act.Defer? && 0 <= w.deferred <= act.cap ==> w.deferred <= After(w, act, holding, limits).deferred <= act.cap
    ensures act.Defer? && act.cap <= w.deferred ==> After(w, act, holding, limits).deferred == w.deferred
  {
    hide Target, Handled;
    match act
    case Event(event, now) => HandledDeferred(w, event, holding, now);
    case Tick(at, ends) =>
      var awake := Awake(w, at);
      var linked := LinksWatched(awake, holding, at, limits);
      var targeted := TargetWatched(linked, holding, at, limits);
      HandledDeferred(awake, LINK_LOST, holding, Some(at));
      HandledDeferred(linked, TARGET_LOST, holding, Some(at));
      if Timer(targeted.state, limits).Some? {
        HandledDeferred(targeted.(fired := targeted.fired + {targeted.state}), Timer(targeted.state, limits).value.0,
                        holding, Some(at));
      }
      HandledDeferred(TimersWatched(targeted, holding, at, limits), GOAL_UNREACHABLE, holding, Some(at));
    case _ =>
  }

  lemma HandledDeferred(w: Watch, event: Events.Event, holding: bool, now: Option<int>)
    ensures Handled(w, event, holding, now).deferred in {0, w.deferred}
  {
    hide Target;
  }

  /** A deferral is granted as asked, up to the cap. */
  lemma DeferralIsGranted(w: Watch, span: int, cap: int)
    requires span > 0 && 0 <= w.deferred <= cap
    ensures Deferred(w, span, cap).deferred == if w.deferred + span <= cap then w.deferred + span else cap
  {
  }

  /** However often a deferral is asked for, all deferrals of one stay together stay within the cap. */
  lemma {:induction false} DeferralIsCapped(w: Watch, acts: seq<(Act, bool)>, limits: Limits, cap: int)
    requires 0 <= w.deferred <= cap && CapsWithin(acts, cap)
    ensures 0 <= Run(w, acts, limits).deferred <= cap
    decreases |acts|
  {
    hide After;
    if acts != [] {
      DeferralOnlyGrowsByDefer(w, acts[0].0, acts[0].1, limits);
      DeferralIsCapped(After(w, acts[0].0, acts[0].1, limits), acts[1..], limits, cap);
    }
  }

  /** So repeated signals cannot hold off the alarm for ever: a machine still waiting for an authentication `authTimeout`
      plus the cap after it began to wait, and not held by an alarm already, times out at the next tick. */
  lemma WaitingEnds(w: Watch, acts: seq<(Act, bool)>, limits: Limits, cap: int, now: int, ends: bool)
    requires 0 <= w.deferred <= cap && CapsWithin(acts, cap)
    requires var v := Run(w, acts, limits);
             && v.state == v.known == AUTH_WAIT && AUTH_WAIT !in v.fired && v.since.Some?
             && now >= v.since.value + limits.authTimeout + cap
    ensures var end := Ticked(Run(w, acts, limits), false, now, ends, limits);
            (end.state == ALERT && end.trigger == Some(AUTH_FAILED)) || end.state == FAILSAFE
  {
    hide Ticked, Run;
    var v := Run(w, acts, limits);
    DeferralIsCapped(w, acts, limits, cap);
    if Stale(v, now, limits) {
      StaleTickStops(v, false, now, ends, limits, Commander.HALT, (_: State) => Commander.HALT);
    } else {
      TimeOutIsReported(v, now, ends, limits);
    }
  }
}
