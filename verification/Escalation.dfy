/** The response level L0 - L3 and F: how strongly the robot responds, apart from what it does. */
module Escalation {
  import opened Optional
  import opened Events

  datatype Level = L0 | L1 | L2 | L3 | F

  function Rank(level: Level): nat {
    match level
    case L0 => 0
    case L1 => 1
    case L2 => 2
    case L3 => 3
    case F => 4
  }

  function RaisedBy(event: Event): Option<Level> {
    match event
    case AUTH_FAILED => Some(L3)
    case ZONE_CHANGED => Some(L3)
    case PERSON_DOWN => Some(L3)
    case ONBOARD_FAILSAFE => Some(F)
    case LINK_LOST => Some(F)
    case ESTOP => Some(F)
    case _ => None
  }

  datatype Timing = Timing(hold: int, lost: int, warn: int)

  datatype Axis = Axis(level: Level, l1Since: Option<int>, lastSeen: Option<int>, authenticated: bool, alarmPending: bool,
                       warnUntil: Option<int>, fallSuspected: bool)

  const CALM := Axis(L0, None, None, false, false, None, false)

  /** Nobody but a person may lower it; a warning's L3 is not latched. */
  predicate Latched(a: Axis) {
    (a.level == L3 || a.level == F) && a.warnUntil.None?
  }

  function Entered(a: Axis, level: Level, now: int): Axis {
    a.(level := level, warnUntil := None, l1Since := if level == L1 then Some(now) else None,
       alarmPending := if level == L3 then true else if level == L0 then false else a.alarmPending)
  }

  function Released(a: Axis, now: int): Axis {
    Entered(a.(authenticated := false), L0, now)
  }

  function Raised(a: Axis, level: Level, now: int): Axis {
    if Rank(level) > Rank(a.level) || (level == L3 && a.warnUntil.Some?) then Entered(a, level, now)
    else if a.level == F && level == L3 then a.(alarmPending := true)
    else a
  }

  function Warned(a: Axis, now: int, timing: Timing): Axis {
    if Rank(a.level) >= Rank(L3) then a
    else Entered(a, L3, now).(alarmPending := false, warnUntil := Some(now + timing.warn))
  }

  function Authenticated(a: Axis, now: int): Axis {
    var b := a.(authenticated := true);
    if !Latched(b) && b.level == L2 then Entered(b, L0, now) else b
  }

  function FailsafeConfirmed(a: Axis, now: int): Axis {
    if a.level != F then a else if a.alarmPending then Entered(a, L3, now) else Released(a, now)
  }

  function AlarmConfirmed(a: Axis, now: int): Axis {
    if a.level != L3 then a else Released(a.(alarmPending := false), now)
  }

  function Noted(a: Axis, event: Event, accepted: bool, now: int, timing: Timing): Axis {
    var b := if RaisedBy(event).Some? then Raised(a, RaisedBy(event).value, now) else a;
    var c := if event == PPE_VIOLATION then Warned(b, now, timing) else b;
    if !accepted then c
    else if event == AUTH_OK then Authenticated(c, now)
    else if event == RESET_CONFIRMED then FailsafeConfirmed(c, now)
    else c
  }

  function PersonNoted(a: Axis, present: bool, lastSeen: Option<int>, now: int): Axis {
    var b := if lastSeen.Some? then a.(lastSeen := lastSeen) else a;
    if !Latched(b) && present then Raised(b, L1, now) else b
  }

  function StoodDown(a: Axis, now: int): Axis {
    if a.level == L1 || a.level == L2 then Released(a, now) else a
  }

  function FallNoted(a: Axis, active: bool, now: int): Axis {
    var b := a.(fallSuspected := active);
    if active then Raised(b, L1, now) else if b.level == L1 then Released(b, now) else b
  }

  function Settled(a: Axis, now: int): Axis {
    if a.level == L1 then Released(a, now) else a
  }

  predicate Lost(a: Axis, now: int, timing: Timing) {
    a.lastSeen.Some? && now - a.lastSeen.value >= timing.lost
  }

  function Ticked(a: Axis, now: int, requireAuth: bool, timing: Timing): Axis {
    if a.warnUntil.Some? && now >= a.warnUntil.value then
      (if a.fallSuspected then Entered(a, L1, now) else Released(a, now))
    else if Lost(a, now, timing) && !a.fallSuspected && a.level == L1 then Released(a, now)
    else if Lost(a, now, timing) && !a.fallSuspected && a.level == L2 then
      (if requireAuth then Raised(a, L3, now) else Released(a, now))
    else if requireAuth && a.level == L1 && !a.authenticated && !a.fallSuspected
         && a.l1Since.Some? && now - a.l1Since.value >= timing.hold then Raised(a, L2, now)
    else a
  }

  /** What may happen to the level. `Raise` is the program's internal call; the rest are its public operations. */
  datatype Op =
    | Raise(level: Level, now: int)
    | Warn(now: int)
    | Note(event: Event, accepted: bool, now: int)
    | Person(present: bool, seen: Option<int>, now: int)
    | Authenticate(now: int)
    | StandDown(now: int)
    | Fall(active: bool, now: int)
    | Settle(now: int)
    | AuthenticationLost
    | Tick(now: int, requireAuth: bool)
    | ConfirmAlarm(now: int)
    | ConfirmFailsafe(now: int)

  function Apply(a: Axis, op: Op, timing: Timing): Axis {
    match op
    case Raise(level, now) => Raised(a, level, now)
    case Warn(now) => Warned(a, now, timing)
    case Note(event, accepted, now) => Noted(a, event, accepted, now, timing)
    case Person(present, seen, now) => PersonNoted(a, present, seen, now)
    case Authenticate(now) => Authenticated(a, now)
    case StandDown(now) => StoodDown(a, now)
    case Fall(active, now) => FallNoted(a, active, now)
    case Settle(now) => Settled(a, now)
    case AuthenticationLost => a.(authenticated := false)
    case Tick(now, requireAuth) => Ticked(a, now, requireAuth, timing)
    case ConfirmAlarm(now) => AlarmConfirmed(a, now)
    case ConfirmFailsafe(now) => FailsafeConfirmed(a, now)
  }

  class Escalation {
    const timing: Timing
    var level: Level
    var l1Since: Option<int>
    var lastSeen: Option<int>
    var authenticated: bool
    var alarmPending: bool
    var warnUntil: Option<int>
    var fallSuspected: bool

    function Abs(): Axis
      reads this
    {
      Axis(level, l1Since, lastSeen, authenticated, alarmPending, warnUntil, fallSuspected)
    }

    constructor (timing: Timing)
      ensures Abs() == CALM && this.timing == timing
    {
      this.timing := timing;
      level, l1Since, lastSeen, authenticated, alarmPending, warnUntil, fallSuspected :=
        L0, None, None, false, false, None, false;
    }

    method Enter(to: Level, now: int)
      modifies this
      ensures Abs() == Entered(old(Abs()), to, now)
    {
      level := to;
      warnUntil := None;
      l1Since := if to == L1 then Some(now) else None;
      if to == L3 {
        alarmPending := true;
      } else if to == L0 {
        alarmPending := false;
      }
    }

    method Release(now: int)
      modifies this
      ensures Abs() == Released(old(Abs()), now)
    {
      authenticated := false;
      Enter(L0, now);
    }

    method RaiseTo(to: Level, now: int) returns (entered: bool)
      modifies this
      ensures Abs() == Raised(old(Abs()), to, now)
      ensures Rank(level) >= Rank(to) && (old(alarmPending) ==> alarmPending)
      ensures old(Consistent(Abs())) ==> Rank(level) >= Rank(old(level))
      ensures old(Consistent(Abs())) && to == L3 ==> alarmPending && Latched(Abs())
      ensures entered <==> Rank(to) > Rank(old(level)) || (to == L3 && old(warnUntil).Some?)
    {
      if Rank(to) <= Rank(level) {
        if to == L3 && warnUntil.Some? {
          Enter(to, now);
          return true;
        }
        if level == F && to == L3 {
          alarmPending := true;
        }
        return false;
      }
      Enter(to, now);
      entered := true;
    }

    method WarnFor(now: int) returns (warned: bool)
      modifies this
      ensures Abs() == Warned(old(Abs()), now, timing) && (warned <==> Rank(old(level)) < Rank(L3))
      ensures old(Latched(Abs())) ==> Abs() == old(Abs())
    {
      if Rank(level) >= Rank(L3) {
        return false;
      }
      Enter(L3, now);
      alarmPending := false;
      warnUntil := Some(now + timing.warn);
      warned := true;
    }

    method NoteEvent(event: Event, accepted: bool, now: int)
      modifies this
      ensures Abs() == Noted(old(Abs()), event, accepted, now, timing)
      ensures old(Latched(Abs())) && !(event == RESET_CONFIRMED && accepted) ==>
                Latched(Abs()) && Rank(level) >= Rank(old(level))
      ensures old(Consistent(Abs()) && Latched(Abs()) && alarmPending) ==> alarmPending
    {
      if RaisedBy(event).Some? {
        var entered := RaiseTo(RaisedBy(event).value, now);
      }
      if event == PPE_VIOLATION {
        var warned := WarnFor(now);
      }
      if !accepted {
        return;
      }
      if event == AUTH_OK {
        NoteAuthenticated(now);
      }
      if event == RESET_CONFIRMED {
        var released := ConfirmFailsafeReset(now);
      }
    }

    method NotePerson(present: bool, seen: Option<int>, now: int)
      modifies this
      ensures Abs() == PersonNoted(old(Abs()), present, seen, now)
      ensures old(Latched(Abs())) ==> level == old(level) && Latched(Abs()) && alarmPending == old(alarmPending)
    {
      if seen.Some? {
        lastSeen := seen;
      }
      if (level == L3 || level == F) && warnUntil.None? {
        return;
      }
      if present {
        var entered := RaiseTo(L1, now);
      }
    }

    method NoteAuthenticated(now: int)
      modifies this
      ensures Abs() == Authenticated(old(Abs()), now)
      ensures old(Latched(Abs())) ==> level == old(level) && Latched(Abs()) && alarmPending == old(alarmPending)
    {
      authenticated := true;
      if (level == L3 || level == F) && warnUntil.None? {
        return;
      }
      if level == L2 {
        Enter(L0, now);
      }
    }

    method StandDownNow(now: int)
      modifies this
      ensures Abs() == StoodDown(old(Abs()), now)
      ensures old(Latched(Abs())) ==> level == old(level) && Latched(Abs()) && alarmPending == old(alarmPending)
    {
      if level == L1 || level == L2 {
        Release(now);
      }
    }

    method NoteFallSuspect(active: bool, now: int)
      modifies this
      ensures Abs() == FallNoted(old(Abs()), active, now)
      ensures old(Latched(Abs())) ==> level == old(level) && Latched(Abs()) && alarmPending == old(alarmPending)
    {
      fallSuspected := active;
      if active {
        var entered := RaiseTo(L1, now);
      } else if level == L1 {
        Release(now);
      }
    }

    method SettlePpe(now: int)
      modifies this
      ensures Abs() == Settled(old(Abs()), now)
      ensures old(Latched(Abs())) ==> level == old(level) && Latched(Abs()) && alarmPending == old(alarmPending)
    {
      if level == L1 {
        Release(now);
      }
    }

    method NoteAuthenticationLost()
      modifies this
      ensures Abs() == old(Abs()).(authenticated := false)
    {
      authenticated := false;
    }

    method PassTime(now: int, requireAuth: bool)
      modifies this
      ensures Abs() == Ticked(old(Abs()), now, requireAuth, timing)
      ensures old(Consistent(Abs()) && Latched(Abs())) ==> Abs() == old(Abs())
      ensures old(warnUntil).Some? && now >= old(warnUntil).value ==> level == if fallSuspected then L1 else L0
    {
      if warnUntil.Some? && now >= warnUntil.value {
        if fallSuspected {
          Enter(L1, now);
        } else {
          Release(now);
        }
        return;
      }
      if lastSeen.Some? && now - lastSeen.value >= timing.lost && !fallSuspected {
        if level == L1 {
          Release(now);
          return;
        }
        if level == L2 {
          if requireAuth {
            var entered := RaiseTo(L3, now);
          } else {
            Release(now);
          }
          return;
        }
      }
      if requireAuth && level == L1 && !authenticated && !fallSuspected {
        if l1Since.Some? && now - l1Since.value >= timing.hold {
          var entered := RaiseTo(L2, now);
        }
      }
    }

    method ConfirmAlarmSeen(now: int) returns (released: bool)
      modifies this
      ensures Abs() == AlarmConfirmed(old(Abs()), now) && (released <==> old(level) == L3)
      ensures released ==> level == L0 && !alarmPending && !authenticated
    {
      if level != L3 {
        return false;
      }
      alarmPending := false;
      Release(now);
      released := true;
    }

    method ConfirmFailsafeReset(now: int) returns (released: bool)
      modifies this
      ensures Abs() == FailsafeConfirmed(old(Abs()), now) && (released <==> old(level) == F)
      ensures released ==> (if old(alarmPending) then level == L3 && Latched(Abs()) && alarmPending else level == L0)
    {
      if level != F {
        return false;
      }
      if alarmPending {
        Enter(L3, now);
        return true;
      }
      Release(now);
      released := true;
    }
  }

  // ----- what every operation keeps -----

  /** The flags mean what they say: below F an alarm is pending exactly at a latched L3. */
  predicate Consistent(a: Axis) {
    && (a.level != F ==> (a.alarmPending <==> a.level == L3 && a.warnUntil.None?))
    && (a.warnUntil.Some? ==> a.level == L3)
    && (a.l1Since.Some? <==> a.level == L1)
  }

  lemma ApplyKeeps(a: Axis, op: Op, timing: Timing)
    requires Consistent(a)
    ensures Consistent(Apply(a, op, timing))
  {
    if op.Note? {
      NotedKeeps(a, op.event, op.accepted, op.now, timing);
    }
    hide Noted;
  }

  lemma NotedKeeps(a: Axis, event: Event, accepted: bool, now: int, timing: Timing)
    requires Consistent(a)
    ensures Consistent(Noted(a, event, accepted, now, timing))
  {
  }

  /** What time does, and when: it ends a warning, lets go of a lost target, makes a lost stranger an alarm, and asks a target
      that stays for its authentication. It does nothing else. */
  lemma TimeIff(a: Axis, now: int, requireAuth: bool, timing: Timing)
    requires Consistent(a)
    ensures var b := Ticked(a, now, requireAuth, timing);
            var gone := a.lastSeen.Some? && now >= a.lastSeen.value + timing.lost && !a.fallSuspected;
            if a.warnUntil.Some? && now >= a.warnUntil.value then b.warnUntil.None? && b.level == if a.fallSuspected then L1 else L0
            else
              && (a.level == L1 ==>
                    && (b.level == L0 <==> gone)
                    && (b.level == L2 <==> !gone && requireAuth && !a.authenticated && !a.fallSuspected
                                           && now - a.l1Since.value >= timing.hold)
                    && (b.level == L0 || b.level == L2 || b == a))
              && (a.level == L2 ==>
                    && (b.level == L3 && b.alarmPending <==> gone && requireAuth)
                    && (b.level == L0 <==> gone && !requireAuth)
                    && (b.level == L3 || b.level == L0 || b == a))
              && (a.level != L1 && a.level != L2 ==> b == a)
  {
  }

  predicate Alarmed(a: Axis) {
    a.level == L3 && a.alarmPending && Latched(a)
  }

  /** What each event does to a level that is calm. */
  lemma FromCalm(event: Event, accepted: bool, now: int, timing: Timing)
    ensures var a := Noted(CALM, event, accepted, now, timing);
            && (event == AUTH_FAILED || event == ZONE_CHANGED || event == PERSON_DOWN <==> Alarmed(a))
            && (event == ONBOARD_FAILSAFE || event == LINK_LOST || event == ESTOP <==> a.level == F)
            && (event == PPE_VIOLATION <==> a.level == L3 && a.warnUntil == Some(now + timing.warn))
            && (a.level == L3 || a.level == F || a.level == L0)
  {
  }

  /** What a sighting and a suspected fall do to a calm level, and the end of the suspicion. */
  lemma WatchingFromCalm(seen: Option<int>, now: int)
    ensures PersonNoted(CALM, true, seen, now).level == L1 && PersonNoted(CALM, true, seen, now).l1Since == Some(now)
    ensures PersonNoted(CALM, false, seen, now).level == L0
    ensures seen.Some? ==> PersonNoted(CALM, false, seen, now).lastSeen == seen
    ensures FallNoted(CALM, true, now).level == L1 && FallNoted(FallNoted(CALM, true, now), false, now).level == L0
  {
  }

  /** An authentication ends the asking, and rest ends watching and asking. */
  lemma EndsOfWatching(a: Axis, now: int)
    requires a.level == L1 || a.level == L2
    ensures StoodDown(a, now).level == L0 && !StoodDown(a, now).authenticated
    ensures Authenticated(a, now).authenticated && (a.level == L2 ==> Authenticated(a, now).level == L0)
    ensures a.level == L1 ==> Settled(a, now).level == L0 && FallNoted(a, false, now).level == L0
  {
  }

  predicate Authenticates(op: Op) {
    op.Authenticate? || (op.Note? && op.event == AUTH_OK && op.accepted)
  }

  /** What every operation leaves of what was noted: the last word on a suspected fall, the last sighting, and an
      authentication until it is withdrawn or the level is let go. */
  lemma EveryOpRemembers(a: Axis, op: Op, timing: Timing)
    requires Consistent(a)
    ensures var b := Apply(a, op, timing);
            && b.fallSuspected == (if op.Fall? then op.active else a.fallSuspected)
            && b.lastSeen == (if op.Person? && op.seen.Some? then op.seen else a.lastSeen)
            && (b.authenticated <==>
                  Authenticates(op) || (a.authenticated && !op.AuthenticationLost? && !(a.level != L0 && b.level == L0)))
  {
    if op.Note? {
      EventRemembers(a, op.event, op.accepted, op.now, timing);
      hide Noted;
    }
  }

  lemma EventRemembers(a: Axis, event: Event, accepted: bool, now: int, timing: Timing)
    requires Consistent(a)
    ensures var b := Noted(a, event, accepted, now, timing);
            && b.fallSuspected == a.fallSuspected && b.lastSeen == a.lastSeen
            && (b.authenticated <==> (event == AUTH_OK && accepted) || (a.authenticated && !(a.level != L0 && b.level == L0)))
  {
  }

  /** A reset means something at F only: it goes back to L3 if an alarm was pending when F was entered, or came while at F, and
      to L0 otherwise. */
  lemma ResetGoesBack(a: Axis, t0: int, during: Event, accepted: bool, t1: int, t2: int, timing: Timing)
    requires Consistent(a) && a.level != F && !(during == RESET_CONFIRMED && accepted)
    ensures FailsafeConfirmed(a, t0) == a
    ensures var b := FailsafeConfirmed(Noted(Raised(a, F, t0), during, accepted, t1, timing), t2);
            && b.level == (if a.alarmPending || RaisedBy(during) == Some(L3) then L3 else L0)
            && (b.level == L3 <==> b.alarmPending)
  {
  }

  /** A latched level is never lowered by itself, by time, by a sighting, a warning, an authentication or an event: only
      by the operator's confirmation (L3) and by the accepted reset (F). */
  lemma OnlyAPersonLowers(a: Axis, op: Op, timing: Timing)
    requires Consistent(a) && Latched(a)
    requires Rank(Apply(a, op, timing).level) < Rank(a.level) || !Latched(Apply(a, op, timing))
    ensures (a.level == L3 && op.ConfirmAlarm?)
         || (a.level == F && (op.ConfirmFailsafe? || (op.Note? && op.event == RESET_CONFIRMED && op.accepted)))
  {
  }

  // ----- whole runs -----

  function Run(a: Axis, ops: seq<Op>, timing: Timing): Axis
    decreases |ops|
  {
    if ops == [] then a else Run(Apply(a, ops[0], timing), ops[1..], timing)
  }

  /** An operation that demands L3: a raise to L3, an L3 event, or a target lost while its authentication was awaited. */
  predicate Alarms(a: Axis, op: Op, timing: Timing) {
    match op
    case Raise(level, _) => level == L3
    case Note(event, _, _) => RaisedBy(event) == Some(L3)
    case Tick(now, requireAuth) => a.level == L2 && requireAuth && !a.fallSuspected && Lost(a, now, timing)
    case _ => false
  }

  predicate OwedAfter(a: Axis, op: Op, timing: Timing, owed: bool) {
    Alarms(a, op, timing) || (owed && !(op.ConfirmAlarm? && a.level == L3))
  }

  /** Is there an alarm nobody has confirmed yet? Told from what was raised and what was confirmed, not from the flag. */
  predicate Owed(a: Axis, ops: seq<Op>, timing: Timing, owed: bool)
    decreases |ops|
  {
    if ops == [] then owed
    else Owed(Apply(a, ops[0], timing), ops[1..], timing, OwedAfter(a, ops[0], timing, owed))
  }

  lemma PendingAfter(a: Axis, op: Op, timing: Timing)
    requires Consistent(a)
    ensures Apply(a, op, timing).alarmPending <==> OwedAfter(a, op, timing, a.alarmPending)
  {
  }

  /** The flag is the history: an alarm is pending exactly when one was raised that no confirmation at L3 followed, and
      while it is pending the level is a latched L3 or F - through any mix of stops, resets, authentications, timers,
      warnings and losses. */
  lemma {:induction false} AlarmIsNeverLost(a: Axis, ops: seq<Op>, timing: Timing)
    requires Consistent(a)
    ensures var end := Run(a, ops, timing);
            && Consistent(end)
            && (end.alarmPending <==> Owed(a, ops, timing, a.alarmPending))
            && (end.alarmPending ==> Latched(end))
    decreases |ops|
  {
    if ops != [] {
      hide Apply, OwedAfter;
      ApplyKeeps(a, ops[0], timing);
      PendingAfter(a, ops[0], timing);
      AlarmIsNeverLost(Apply(a, ops[0], timing), ops[1..], timing);
    }
  }

  lemma {:induction false} LastStep(a: Axis, ops: seq<Op>, timing: Timing)
    requires ops != []
    ensures Run(a, ops, timing) == Apply(Run(a, ops[..|ops| - 1], timing), ops[|ops| - 1], timing)
    decreases |ops|
  {
    if |ops| > 1 {
      LastStep(Apply(a, ops[0], timing), ops[1..], timing);
      assert ops[..|ops| - 1][1..] == ops[1..][..|ops[1..]| - 1];
    }
  }

  /** `j` is the operation with which the present stay at L1 began, at time `since`. */
  ghost predicate BeganAt(a: Axis, ops: seq<Op>, timing: Timing, j: nat, since: int) {
    && j < |ops| && !ops[j].AuthenticationLost? && ops[j].now == since
    && Run(a, ops[..j], timing).level != L1
    && (forall k :: j < k <= |ops| ==> Run(a, ops[..k], timing).level == L1)
  }

  /** `l1Since` is when the present stay at L1 began. */
  lemma {:induction false} StayHasAStart(a: Axis, ops: seq<Op>, timing: Timing) returns (j: nat)
    requires Consistent(a) && a.level != L1 && Run(a, ops, timing).level == L1
    ensures BeganAt(a, ops, timing, j, Run(a, ops, timing).l1Since.GetOr(0))
    decreases |ops|
  {
    hide Apply;
    var n := |ops| - 1;
    var b := Run(a, ops[..n], timing);
    LastStep(a, ops, timing);
    AlarmIsNeverLost(a, ops[..n], timing);
    OneStepAtL1(b, ops[n], timing);
    assert ops[..n + 1] == ops;
    if b.level == L1 {
      j := StayHasAStart(a, ops[..n], timing);
      forall k | j < k <= n + 1
        ensures Run(a, ops[..k], timing).level == L1
      {
        if k <= n {
          assert ops[..n][..k] == ops[..k];
        }
      }
      assert ops[..n][..j] == ops[..j];
    } else {
      j := n;
    }
  }

  lemma OneStepAtL1(a: Axis, op: Op, timing: Timing)
    requires Consistent(a) && Apply(a, op, timing).level == L1
    ensures a.level == L1 ==> Apply(a, op, timing).l1Since == a.l1Since
    ensures a.level != L1 ==> !op.AuthenticationLost? && Apply(a, op, timing).l1Since == Some(op.now)
  {
  }

  /** A tick promotes to L2 only somebody who is not authenticated and has been watched at L1, without a break, for the
      whole hold. */
  lemma PromotionNeedsTheHold(a: Axis, ops: seq<Op>, timing: Timing, tick: Op) returns (j: nat, since: int)
    requires Consistent(a) && a.level != L1 && tick.Tick?
    requires Run(a, ops, timing).level != L2 && Apply(Run(a, ops, timing), tick, timing).level == L2
    ensures tick.requireAuth && !Run(a, ops, timing).authenticated
    ensures BeganAt(a, ops, timing, j, since) && tick.now - since >= timing.hold
  {
    AlarmIsNeverLost(a, ops, timing);
    j := StayHasAStart(a, ops, timing);
    since := Run(a, ops, timing).l1Since.GetOr(0);
  }
}
