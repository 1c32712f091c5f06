/** Navigation requests cross from the dashboard's threads to the loop. Each action below is one lock section, or one
    unlocked read or write, of the program; they interleave freely. */
module NavRequests {
  import opened Optional

  /** `stamp` is the epoch in which the request began. */
  datatype Request = Request(id: nat, stamp: nat)

  /** Where the loop is in its drain. */
  datatype Phase =
    | Idle
    | Taken                 // the requests are taken off their slots
    | Seen                  // a cancel was seen
    | Cleared               // its mark was cleared, the goal is not cancelled yet
    | Cancelled             // the goal is cancelled, what was taken is not dropped yet
    | Passed                // no cancel is in the way
    | RouteDone(asks: bool) // the route was handed to the navigator, the patrol is not asked for yet
    | RouteEnded
    | GotoDone(asks: bool)
    | Ended

  datatype Nav = Nav(epoch: nat, cancelAsked: bool, routeAsked: Option<Request>, gotoAsked: Option<Request>, feedback: bool,
                     begun: map<nat, nat>,          // route requests between their two lock sections
                     active: Option<Request>,       // what the navigator is driving to
                     patrolAsked: Option<Request>, patrolling: Option<Request>,
                     phase: Phase, route: Option<Request>, goto: Option<Request>,
                     handled: nat)                  // history: the epoch of the last cancel the loop has handled

  const REST := Nav(0, false, None, None, false, map[], None, None, None, Idle, None, None, 0)

  datatype Step =
    | BeginRoute(id: nat)
    | FinishRoute(id: nat)
    | GiveUpRoute(id: nat)
    | AskGoto(id: nat)
    | AskPatrol(id: nat)
    | Cancel
    | Loop(ok: bool, inPatrol: bool)   // the loop's next action; what it depends on elsewhere is a parameter

  function After(n: Nav, step: Step): Nav {
    match step
    case BeginRoute(id) => if n.cancelAsked then n else n.(begun := n.begun[id := n.epoch])
    case FinishRoute(id) =>
      if id !in n.begun then n
      else
        var done := n.(begun := n.begun - {id});
        if n.begun[id] != n.epoch then done
        else done.(routeAsked := Some(Request(id, n.begun[id])), gotoAsked := None)
    case GiveUpRoute(id) => n.(begun := n.begun - {id})
    case AskGoto(id) => n.(gotoAsked := Some(Request(id, n.epoch)), routeAsked := None, feedback := false)
    case AskPatrol(id) => n.(patrolAsked := Some(Request(id, n.epoch)))
    case Cancel => n.(epoch := n.epoch + 1, cancelAsked := true, routeAsked := None, gotoAsked := None, patrolAsked := None)
    case Loop(ok, inPatrol) => Looped(n, ok, inPatrol)
  }

  function Looped(n: Nav, ok: bool, inPatrol: bool): Nav {
    match n.phase
    case Idle => n.(phase := Taken, route := n.routeAsked, goto := n.gotoAsked, routeAsked := None, gotoAsked := None)
    case Taken => n.(phase := if n.cancelAsked then Seen else Passed)
    case Seen => n.(phase := Cleared, cancelAsked := false, handled := n.epoch)
    case Cleared => n.(phase := Cancelled, active := None)
    case Cancelled =>
      n.(phase := Passed, route := None, goto := None,
         patrolAsked := if n.goto.Some? || n.route.Some? || n.feedback then None else n.patrolAsked)
    case Passed =>
      if n.route.None? then n.(phase := RouteEnded)
      else n.(phase := RouteDone(ok && !inPatrol), active := if ok then n.route else n.active)
    case RouteDone(asks) => n.(phase := RouteEnded, patrolAsked := if asks then n.route else n.patrolAsked)
    case RouteEnded =>
      if n.goto.None? then n.(phase := Ended)
      else n.(phase := GotoDone(ok && !inPatrol), active := if ok then n.goto else n.active, feedback := true)
    case GotoDone(asks) => n.(phase := Ended, patrolAsked := if asks then n.goto else n.patrolAsked)
    case Ended =>
      var over := n.(phase := Idle, route := None, goto := None);
      if ok && n.patrolAsked.Some? then over.(patrolling := n.patrolAsked, patrolAsked := None) else over
  }

  function Run(n: Nav, steps: seq<Step>): Nav
    decreases |steps|
  {
    if steps == [] then n else Run(After(n, steps[0]), steps[1..])
  }

  // ----- a stop is not undone -----

  /** A request that is on its way is as new as the last cancel, or a cancel is still to be seen, or (`stopping`) one is being
      carried out. */
  predicate Covered(r: Option<Request>, epoch: nat, handled: nat, marked: bool, stopping: bool) {
    r.Some? ==>
      r.value.stamp <= epoch && (stopping || (r.value.stamp >= handled && (marked || r.value.stamp == epoch)))
  }

  predicate IsNow(r: Option<Request>, epoch: nat) {
    r.Some? ==> r.value.stamp == epoch
  }

  ghost predicate Inv(n: Nav) {
    && n.handled <= n.epoch && (n.phase == Seen ==> n.cancelAsked)
    && (forall id :: id in n.begun ==> n.begun[id] <= n.epoch)
    && IsNow(n.routeAsked, n.epoch) && IsNow(n.gotoAsked, n.epoch)
    && Covered(n.route, n.epoch, n.handled, n.cancelAsked, n.phase == Cleared || n.phase == Cancelled)
    && Covered(n.goto, n.epoch, n.handled, n.cancelAsked, n.phase == Cleared || n.phase == Cancelled)
    && Covered(n.active, n.epoch, n.handled, n.cancelAsked, n.phase == Cleared)
    && (n.phase == Idle ==> n.route.None? && n.goto.None?)
  }

  lemma LoopKeeps(n: Nav, ok: bool, inPatrol: bool)
    requires Inv(n)
    ensures Inv(Looped(n, ok, inPatrol))
  {
    hide Inv, Looped;
    match n.phase
    case Idle => CheckKeeps(n, ok, inPatrol);
    case Taken => CheckKeeps(n, ok, inPatrol);
    case Seen => CheckKeeps(n, ok, inPatrol);
    case Cleared => StopKeeps(n, ok, inPatrol);
    case Cancelled => StopKeeps(n, ok, inPatrol);
    case Passed => RouteKeeps(n, ok, inPatrol);
    case RouteDone(_) => RouteKeeps(n, ok, inPatrol);
    case RouteEnded => GotoKeeps(n, ok, inPatrol);
    case GotoDone(_) => GotoKeeps(n, ok, inPatrol);
    case Ended => StopKeeps(n, ok, inPatrol);
  }

  lemma CheckKeeps(n: Nav, ok: bool, inPatrol: bool)
    requires Inv(n) && (n.phase == Idle || n.phase == Taken || n.phase == Seen)
    ensures Inv(Looped(n, ok, inPatrol))
  {
  }

  lemma StopKeeps(n: Nav, ok: bool, inPatrol: bool)
    requires Inv(n) && (n.phase == Cleared || n.phase == Cancelled || n.phase == Ended)
    ensures Inv(Looped(n, ok, inPatrol))
  {
  }

  lemma RouteKeeps(n: Nav, ok: bool, inPatrol: bool)
    requires Inv(n) && (n.phase == Passed || n.phase.RouteDone?)
    ensures Inv(Looped(n, ok, inPatrol))
  {
  }

  lemma GotoKeeps(n: Nav, ok: bool, inPatrol: bool)
    requires Inv(n) && (n.phase == RouteEnded || n.phase.GotoDone?)
    ensures Inv(Looped(n, ok, inPatrol))
  {
  }

  lemma StepKeeps(n: Nav, step: Step)
    requires Inv(n)
    ensures Inv(After(n, step))
  {
    hide Looped, After, Inv;
    match step
    case Loop(ok, inPatrol) => LoopStepKeeps(n, ok, inPatrol);
    case Cancel => CancelKeeps(n);
    case _ => RequestKeeps(n, step);
  }

  lemma LoopStepKeeps(n: Nav, ok: bool, inPatrol: bool)
    requires Inv(n)
    ensures Inv(After(n, Loop(ok, inPatrol)))
  {
    hide Inv, Looped;
    LoopKeeps(n, ok, inPatrol);
  }

  lemma CancelKeeps(n: Nav)
    requires Inv(n)
    ensures Inv(After(n, Cancel))
  {
  }

  lemma RequestKeeps(n: Nav, step: Step)
    requires Inv(n) && !step.Loop? && !step.Cancel?
    ensures Inv(After(n, step))
  {
  }

  lemma {:induction false} RunKeeps(n: Nav, steps: seq<Step>)
    requires Inv(n)
    ensures Inv(Run(n, steps))
    decreases |steps|
  {
    hide After, Inv;
    if steps != [] {
      StepKeeps(n, steps[0]);
      RunKeeps(After(n, steps[0]), steps[1..]);
    }
  }

  /** Cancel `k` is handled, or the drain that will handle it has not come to its check yet. */
  ghost predicate WillHandle(n: Nav, k: nat) {
    n.handled >= k || (n.cancelAsked && n.epoch >= k && (n.phase == Idle || n.phase == Taken || n.phase == Seen))
  }

  lemma {:induction false} DrainHandles(n: Nav, steps: seq<Step>, k: nat)
    requires WillHandle(n, k) && n.handled <= n.epoch
    ensures WillHandle(Run(n, steps), k)
    decreases |steps|
  {
    if steps != [] {
      DrainHandles(After(n, steps[0]), steps[1..], k);
    }
  }

  /** A stop cannot be undone by a slow start: take any cancel that is marked when a drain begins. Whatever happens in
      between, when that drain ends, no request that began before the cancel is being driven to, is waiting, or can still
      get itself accepted. */
  lemma StopIsNotUndone(n: Nav, steps: seq<Step>, began: nat)
    requires Inv(n) && n.phase == Idle && n.cancelAsked && began < n.epoch
    requires Run(n, steps).phase == Ended
    ensures var end := Run(n, steps);
            && (end.active.Some? ==> end.active.value.stamp > began)
            && (end.routeAsked.Some? ==> end.routeAsked.value.stamp > began)
            && (end.gotoAsked.Some? ==> end.gotoAsked.value.stamp > began)
            && (forall id :: id in end.begun && end.begun[id] == began ==>
                  After(end, FinishRoute(id)).routeAsked == end.routeAsked)
  {
    RunKeeps(n, steps);
    DrainHandles(n, steps, n.epoch);
  }

  // ----- what is asked for comes about -----

  lemma RouteIsDriven(n: Nav, r: Request)
    requires Inv(n) && n.phase == Idle && !n.cancelAsked && n.routeAsked == Some(r) && n.gotoAsked.None?
    ensures var end := Run(n, Turns(6));
            end.phase == Idle && end.active == Some(r) && end.patrolling == Some(r) && end.routeAsked.None?
  {
    hide Run;
    var go := Loop(true, false);
    var taken := n.(phase := Passed, route := n.routeAsked, routeAsked := None);
    var driven := taken.(phase := RouteEnded, active := Some(r), patrolAsked := Some(r));
    var end := driven.(phase := Idle, route := None, goto := None, patrolling := Some(r), patrolAsked := None);
    Stay(end);
    TwoMore(driven, end, go, [], Turns(2), end);
    TwoMore(taken, driven, go, Turns(2), Turns(4), end);
    TwoMore(n, taken, go, Turns(4), Turns(6), end);
  }

  /** A request nobody cancels: one drain hands it to the navigator and starts the patrol that drives it. */
  lemma GoalIsDriven(n: Nav, r: Request)
    requires Inv(n) && n.phase == Idle && !n.cancelAsked && n.gotoAsked == Some(r) && n.routeAsked.None?
    ensures var end := Run(n, Turns(6));
            end.phase == Idle && end.active == Some(r) && end.patrolling == Some(r) && end.gotoAsked.None? && end.feedback
  {
    hide Run;
    var go := Loop(true, false);
    var taken := n.(phase := Passed, route := None, goto := n.gotoAsked, gotoAsked := None);
    var handed := taken.(phase := GotoDone(true), active := Some(r), feedback := true);
    var ended := handed.(phase := Ended, patrolAsked := Some(r));
    var end := ended.(phase := Idle, route := None, goto := None, patrolling := Some(r), patrolAsked := None);
    Stay(end);
    TwoMore(handed, end, go, [], Turns(2), end);
    TwoMore(taken, handed, go, Turns(2), Turns(4), end);
    TwoMore(n, taken, go, Turns(4), Turns(6), end);
  }

  /** And how it comes to be asked: a start that no cancel overtakes is accepted, and so is a goal. */
  lemma StartIsAccepted(n: Nav, id: nat, between: seq<Step>)
    requires !n.cancelAsked && Cancels(between) == 0
    requires forall i :: 0 <= i < |between| ==> FromDashboard(between[i]) && between[i] != GiveUpRoute(id)
                                                && between[i] != FinishRoute(id) && between[i] != BeginRoute(id)
    ensures After(Run(After(n, BeginRoute(id)), between), FinishRoute(id)).routeAsked == Some(Request(id, n.epoch))
    ensures After(n, AskGoto(id)).gotoAsked == Some(Request(id, n.epoch)) && !After(n, AskGoto(id)).feedback
    ensures After(n, AskPatrol(id)).patrolAsked == Some(Request(id, n.epoch))
  {
    StillBegun(After(n, BeginRoute(id)), id, between);
  }

  lemma {:induction false} StillBegun(n: Nav, id: nat, steps: seq<Step>)
    requires id in n.begun && n.begun[id] == n.epoch && Cancels(steps) == 0
    requires forall i :: 0 <= i < |steps| ==> FromDashboard(steps[i]) && steps[i] != GiveUpRoute(id)
                                              && steps[i] != FinishRoute(id) && steps[i] != BeginRoute(id)
    ensures var end := Run(n, steps); id in end.begun && end.begun[id] == n.epoch == end.epoch
    decreases |steps|
  {
    if steps != [] {
      StillBegun(After(n, steps[0]), id, steps[1..]);
    }
  }

  /** A route start is refused while a cancel waits to be handled, and one that was given up cannot be finished. */
  lemma StartIsRefused(n: Nav, id: nat)
    requires id !in n.begun
    ensures n.cancelAsked ==> Run(n, [BeginRoute(id), FinishRoute(id)]) == n
    ensures Run(n, [BeginRoute(id), GiveUpRoute(id), FinishRoute(id)]) == n
  {
    var begun := After(n, BeginRoute(id));
    var givenUp := After(begun, GiveUpRoute(id));
    assert givenUp.begun == n.begun;
    Stay(n);
    Before(n, FinishRoute(id), [], [FinishRoute(id)], n);
    Before(begun, GiveUpRoute(id), [FinishRoute(id)], [GiveUpRoute(id), FinishRoute(id)], n);
    Before(n, BeginRoute(id), [GiveUpRoute(id), FinishRoute(id)], [BeginRoute(id), GiveUpRoute(id), FinishRoute(id)], n);
    if n.cancelAsked {
      Before(n, BeginRoute(id), [FinishRoute(id)], [BeginRoute(id), FinishRoute(id)], n);
    }
  }

  /** The newest request wins: over any run never both a route and a goal wait. */
  lemma {:induction false} OneRequestWaits(n: Nav, steps: seq<Step>)
    requires n.routeAsked.None? || n.gotoAsked.None?
    ensures Run(n, steps).routeAsked.None? || Run(n, steps).gotoAsked.None?
    decreases |steps|
  {
    if steps != [] {
      OneRequestWaits(After(n, steps[0]), steps[1..]);
    }
  }

  /** What the navigator refuses is not driven to, and no patrol is asked for on its behalf; neither is one while on patrol. */
  lemma RefusedIsNotDriven(n: Nav, ok: bool, inPatrol: bool)
    requires !ok || inPatrol
    ensures var after := After(n, Loop(ok, inPatrol));
            && !(after.phase == RouteDone(true)) && !(after.phase == GotoDone(true))
            && (!ok ==> (after.active == n.active || after.active.None?) && after.patrolling == n.patrolling)
  {
    if n.phase.Passed? || n.phase.RouteEnded? {
      assert ok ==> inPatrol;
    }
  }

  /** A drain that finds a cancel and is not disturbed cancels the goal, drops what it took, and drops the patrol's start
      exactly if a route or a goal was on its way or the result of a goal still shows. */
  lemma StopIsCarriedOut(n: Nav, ok: bool, inPatrol: bool)
    requires n.phase == Idle && n.cancelAsked
    ensures var go := Loop(ok, inPatrol);
            var end := Run(n, [go, go] + [go, go] + [go]);
            && end.phase == Passed && !end.cancelAsked && end.handled == n.epoch
            && end.active.None? && end.route.None? && end.goto.None? && end.routeAsked.None? && end.gotoAsked.None?
            && end.patrolAsked == (if n.routeAsked.Some? || n.gotoAsked.Some? || n.feedback then None else n.patrolAsked)
  {
    var go := Loop(ok, inPatrol);
    var seen := After(After(n, go), go);
    var cancelled := After(After(seen, go), go);
    var end := After(cancelled, go);
    hide Run;
    Stay(end);
    Before(cancelled, go, [], [go], end);
    TwoMore(seen, cancelled, go, [go], [go, go] + [go], end);
    TwoMore(n, seen, go, [go, go] + [go], [go, go] + [go, go] + [go], end);
  }

  // ----- the patrol a request asks for -----

  predicate FromDashboard(step: Step) {
    !step.Loop?
  }

  function Cancels(steps: seq<Step>): nat {
    if steps == [] then 0 else (if steps[0] == Cancel then 1 else 0) + Cancels(steps[1..])
  }

  lemma {:induction false} DashboardOnly(n: Nav, steps: seq<Step>)
    requires forall i :: 0 <= i < |steps| ==> FromDashboard(steps[i])
    ensures var end := Run(n, steps);
            && end.epoch == n.epoch + Cancels(steps) && end.phase == n.phase && end.route == n.route && end.goto == n.goto
            && end.active == n.active && end.patrolling == n.patrolling
    decreases |steps|
  {
    if steps != [] {
      DashboardOnly(After(n, steps[0]), steps[1..]);
    }
  }

  lemma {:induction false} RunsJoin(n: Nav, a: seq<Step>, b: seq<Step>)
    ensures Run(n, a + b) == Run(Run(n, a), b)
    decreases |a|
  {
    if a == [] {
      assert a + b == b;
    } else {
      assert (a + b)[0] == a[0] && (a + b)[1..] == a[1..] + b;
      RunsJoin(After(n, a[0]), a[1..], b);
    }
  }

  /** Fresh: the patrol waiting to start was asked for after the last cancel. */
  predicate Fresh(n: Nav) {
    n.patrolAsked.Some? ==> n.patrolAsked.value.stamp == n.epoch
  }

  /** Every action keeps the waiting patrol fresh but one: a drain asking for it on behalf of a request a cancel has overtaken. */
  lemma FreshOrOvertaken(n: Nav, step: Step)
    requires Inv(n) && Fresh(n)
    ensures Fresh(After(n, step)) <==>
              !(step.Loop? && ((n.phase == RouteDone(true) && n.route.Some? && n.route.value.stamp < n.epoch)
                               || (n.phase == GotoDone(true) && n.goto.Some? && n.goto.value.stamp < n.epoch)))
  {
  }

  lemma RunInParts(n: Nav, first: seq<Step>, go: Step, second: seq<Step>)
    ensures Run(n, first + [go] + second + [go]) == After(Run(After(Run(n, first), go), second), go)
  {
    hide Run, After;
    var a := Run(n, first);
    var b := After(a, go);
    var c := Run(b, second);
    RunsJoin(n, first + [go] + second, [go]);
    RunsJoin(n, first + [go], second);
    RunsJoin(n, first, [go]);
    Stay(b);
    Before(a, go, [], [go], b);
    Stay(After(c, go));
    Before(c, go, [], [go], After(c, go));
  }

  /** Exactly when it goes wrong: the drain has found no cancel, `first` happens before it starts the route and `second`
      before it asks for the patrol. The patrol it asks for outlives a stop if and only if a cancel is among them. */
  lemma PatrolOutlivesStopIff(n: Nav, first: seq<Step>, second: seq<Step>)
    requires Inv(n) && n.phase == Passed && n.route.Some? && n.route.value.stamp == n.epoch
    requires forall i :: 0 <= i < |first| ==> FromDashboard(first[i])
    requires forall i :: 0 <= i < |second| ==> FromDashboard(second[i])
    ensures var end := Run(n, first + [Loop(true, false)] + second + [Loop(true, false)]);
            end.patrolAsked == n.route && (!Fresh(end) <==> Cancels(first) + Cancels(second) > 0)
  {
    hide Run, Cancels, Inv;
    DashboardOnly(n, first);
    DashboardOnly(After(Run(n, first), Loop(true, false)), second);
    RunInParts(n, first, Loop(true, false), second);
  }

  /** The same for a goal: the drain is past the route, and `first` happens before it hands the goal over. */
  lemma GoalPatrolOutlivesStopIff(n: Nav, first: seq<Step>, second: seq<Step>)
    requires Inv(n) && n.phase == RouteEnded && n.goto.Some? && n.goto.value.stamp == n.epoch
    requires forall i :: 0 <= i < |first| ==> FromDashboard(first[i])
    requires forall i :: 0 <= i < |second| ==> FromDashboard(second[i])
    ensures var end := Run(n, first + [Loop(true, false)] + second + [Loop(true, false)]);
            end.patrolAsked == n.goto && (!Fresh(end) <==> Cancels(first) + Cancels(second) > 0)
  {
    hide Run, Cancels, Inv;
    DashboardOnly(n, first);
    DashboardOnly(After(Run(n, first), Loop(true, false)), second);
    RunInParts(n, first, Loop(true, false), second);
  }

  /** It does go wrong: a route is asked for, its drain begins, a stop comes after the drain's check. The patrol starts all the
      same, and the next drain, which cancels the route, leaves the patrol walking. */
  lemma PatrolOutlivesStop()
    ensures var go := Loop(true, false);
            var end := Run(REST, [BeginRoute(1), FinishRoute(1), go, go, Cancel, go, go, go, go]);
            && end.phase == Idle && end.patrolling == Some(Request(1, 0)) && end.epoch == 1 && end.active == Some(Request(1, 0))
            && var later := Run(end, [go, go, go, go, go, go, go, go]);
               later.phase == Idle && later.active == None && !later.cancelAsked && later.patrolling == Some(Request(1, 0))
  {
    hide After, Run;
    RouteStarts();
    StopComesLate();
    NextDrain();
  }

  const ROUTE := Some(Request(1, 0))
  const CHECKED := REST.(phase := Passed, route := ROUTE)
  const WALKING := REST.(epoch := 1, cancelAsked := true, active := ROUTE, patrolling := ROUTE)

  lemma RouteStarts()
    ensures Run(CHECKED, [Cancel] + Turns(4)) == WALKING ==>
              Run(REST, [BeginRoute(1), FinishRoute(1), Loop(true, false), Loop(true, false), Cancel, Loop(true, false),
                         Loop(true, false), Loop(true, false), Loop(true, false)]) == WALKING
  {
    hide Run;
    var go := Loop(true, false);
    assert map[1 := 0] - {1} == map[];
    var n1, n2 := REST.(begun := map[1 := 0]), REST.(routeAsked := ROUTE);
    if Run(CHECKED, [Cancel] + Turns(4)) == WALKING {
      TwoMore(n2, CHECKED, go, [Cancel] + Turns(4), [go, go, Cancel, go, go, go, go], WALKING);
      Before(n1, FinishRoute(1), [go, go, Cancel, go, go, go, go], [FinishRoute(1), go, go, Cancel, go, go, go, go], WALKING);
      Before(REST, BeginRoute(1), [FinishRoute(1), go, go, Cancel, go, go, go, go],
             [BeginRoute(1), FinishRoute(1), go, go, Cancel, go, go, go, go], WALKING);
    }
  }

  lemma StopComesLate()
    ensures Run(CHECKED, [Cancel] + Turns(4)) == WALKING
  {
    hide Run;
    var go := Loop(true, false);
    var n5 := CHECKED.(epoch := 1, cancelAsked := true);
    var n7 := n5.(phase := RouteEnded, active := ROUTE, patrolAsked := ROUTE);
    Stay(WALKING);
    TwoMore(n7, WALKING, go, [], Turns(2), WALKING);
    TwoMore(n5, n7, go, Turns(2), Turns(4), WALKING);
    Before(CHECKED, Cancel, Turns(4), [Cancel] + Turns(4), WALKING);
  }

  lemma NextDrain()
    ensures var go := Loop(true, false);
            Run(WALKING, [go, go, go, go, go, go, go, go])
            == WALKING.(cancelAsked := false, handled := 1, active := None)
  {
    hide Run;
    var go := Loop(true, false);
    var later := WALKING.(cancelAsked := false, handled := 1, active := None);
    Stay(later);
    TwoMore(later.(phase := RouteEnded), later, go, [], Turns(2), later);
    TwoMore(later.(phase := Cancelled), later.(phase := RouteEnded), go, Turns(2), Turns(4), later);
    TwoMore(WALKING.(phase := Seen), later.(phase := Cancelled), go, Turns(4), Turns(6), later);
    TwoMore(WALKING, WALKING.(phase := Seen), go, Turns(6), [go, go, go, go, go, go, go, go], later);
  }

  function Turns(k: nat): seq<Step> {
    seq(k, i => Loop(true, false))
  }

  lemma Stay(n: Nav)
    ensures Run(n, []) == n
  {
  }

  lemma Before(n: Nav, step: Step, rest: seq<Step>, all: seq<Step>, end: Nav)
    requires Run(After(n, step), rest) == end && all == [step] + rest
    ensures Run(n, all) == end
  {
    assert all[1..] == rest;
  }

  lemma TwoMore(n: Nav, m: Nav, go: Step, rest: seq<Step>, all: seq<Step>, end: Nav)
    requires After(After(n, go), go) == m && Run(m, rest) == end && all == [go, go] + rest
    ensures Run(n, all) == end
  {
    assert all[1..] == [go] + rest;
    assert ([go] + rest)[1..] == rest;
  }
}
