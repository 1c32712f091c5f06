/** The three ways lines reach the robot: the tick, the emergency stop and the route stop take turns under the send lock.
    The start of the session does not take the lock, so its steps fall anywhere between the steps of a stop. */
module SendOrder {
  import opened Optional
  import opened Commander
  import C = Commander

  /** What a robot under motion lock may still be told. */
  predicate Unlocked(kind: Kind) {
    kind in {STOP, ESTOP, STATE, LED}
  }

  predicate Increasing(lines: seq<Line>) {
    forall i, j :: 0 <= i < j < |lines| ==> lines[i].number < lines[j].number
  }

  predicate Below(lines: seq<Line>, number: int) {
    forall i :: 0 <= i < |lines| ==> lines[i].number < number
  }

  predicate From(lines: seq<Line>, number: int) {
    forall i :: 0 <= i < |lines| ==> lines[i].number >= number
  }

  function Passed(lines: seq<Line>, locked: bool): (passed: seq<Line>)
    ensures |passed| <= |lines|
  {
    if !locked then lines
    else if lines == [] then []
    else (if Unlocked(lines[0].intent.kind) then [lines[0]] else []) + Passed(lines[1..], locked)
  }

  lemma {:induction false} PassedKeeps(lines: seq<Line>, locked: bool, low: int, high: int)
    requires Increasing(lines) && From(lines, low) && Below(lines, high)
    ensures Increasing(Passed(lines, locked)) && From(Passed(lines, locked), low) && Below(Passed(lines, locked), high)
    ensures lines != [] && Unlocked(lines[0].intent.kind) ==> Passed(lines, locked) != [] && Passed(lines, locked)[0] == lines[0]
  {
    if locked && lines != [] {
      PassedKeeps(lines[1..], locked, lines[0].number + 1, high);
    }
  }

  /** The motion lock holds back exactly what would move the robot: of a locked link's lines those of the four harmless kinds
      go out, and no other. */
  lemma {:induction false} PassedIff(lines: seq<Line>, l: Line)
    ensures Passed(lines, false) == lines
    ensures l in Passed(lines, true) <==>
              l in lines && (l.intent.kind == STOP || l.intent.kind == ESTOP || l.intent.kind == STATE || l.intent.kind == LED)
  {
    if lines != [] {
      PassedIff(lines[1..], l);
      assert lines == [lines[0]] + lines[1..];
    }
  }

  lemma Append(a: seq<Line>, b: seq<Line>, at: int)
    requires Increasing(a) && Below(a, at) && Increasing(b) && From(b, at)
    ensures Increasing(a + b)
  {
  }

  lemma SameNumber(lines: seq<Line>, i: int, j: int)
    requires Increasing(lines) && 0 <= i < |lines| && 0 <= j < |lines| && lines[i].number == lines[j].number
    ensures i == j
  {
  }

  function Maybe(line: Option<Line>): seq<Line> {
    if line.Some? then [line.value] else []
  }

  // ----- the steps -----

  /** How far `begin` has come: the socket is set, the opening is encoded, the opening is stored. */
  datatype Begun = Before | SocketSet | OpeningEncoded(line: Line) | Running

  /** How far a stop has come in its lock section. `early`: its line was encoded before the opening's; `unseen`: it looked
      for a waiting opening before that was stored. The emergency stop looks first and then tests for socket and peer, the
      route stop the other way round. */
  datatype Stop =
    | Free
    | Encoded(line: Line, route: bool, early: bool)
    | Tested(line: Line, early: bool)
    | Looked(line: Line, route: bool, early: bool, opening: Option<Line>, unseen: bool)

  /** `waiting` is the stored opening that has not been sent; `wire` is what was handed to the socket, in order. `session`
      and `before` are history: the opening, and how many lines were encoded before it. */
  datatype State = State(sender: Sender, begun: Begun, peer: bool, waiting: Option<Line>, stop: Stop,
                         wire: seq<Line>, session: Option<Line>, before: nat)

  datatype Turn =
    | SetSocket
    | EncodeOpening
    | StoreOpening
    | LearnPeer
    | Ticked(now: int)
    | Ask(act: Act)            // anything queued or intended, from any thread
    | StopBegins(route: bool)
    | StopGoesOn

  datatype Setup = Setup(period: int, locked: bool)

  /** The socket is handed the lines, behind the opening the sender found waiting. */
  function Sent(s: State, opening: Option<Line>, lines: seq<Line>, locked: bool): State {
    s.(waiting := None, wire := s.wire + Passed(Maybe(opening) + lines, locked))
  }

  function StopKind(route: bool): Kind {
    if route then STOP else ESTOP
  }

  /** One turn. A turn that cannot come yet, or has to wait for the send lock, changes nothing. */
  function Turned(s: State, turn: Turn, setup: Setup): State {
    match turn
    case SetSocket => if s.begun.Before? then s.(begun := SocketSet) else s
    case EncodeOpening =>
      if !s.begun.SocketSet? then s
      else
        var line := Line(s.sender.number, HALT);
        s.(sender := C.After(s.sender, setup.period, Immediate(STOP)), begun := OpeningEncoded(line), session := Some(line))
    case StoreOpening => if s.begun.OpeningEncoded? then s.(begun := Running, waiting := Some(s.begun.line)) else s
    case LearnPeer => if s.begun.Running? then s.(peer := true) else s
    case Ticked(now) => if s.begun.Running? && s.stop.Free? then TickSent(s, now, setup) else s
    case Ask(act) =>
      if act.Immediate? || act.Tick? then s else s.(sender := C.After(s.sender, setup.period, act))
    case StopBegins(route) => if s.stop.Free? then StopEncoded(s, route, setup) else s
    case StopGoesOn => StopMoved(s, setup)
  }

  function TickSent(s: State, now: int, setup: Setup): State {
    var lines := Lines(s.sender, Tick(now));
    var ticked := s.(sender := C.After(s.sender, setup.period, Tick(now)));
    if !s.peer || (lines == [] && s.waiting.None?) then ticked else Sent(ticked, s.waiting, lines, setup.locked)
  }

  function StopEncoded(s: State, route: bool, setup: Setup): State {
    var early := s.begun.Before? || s.begun.SocketSet?;
    s.(sender := C.After(s.sender, setup.period, Immediate(StopKind(route))),
       stop := Encoded(Line(s.sender.number, Intent(StopKind(route), [])), route, early),
       before := s.before + if early then 1 else 0)
  }

  predicate Reaches(s: State) {
    !s.begun.Before? && s.peer
  }

  function StopMoved(s: State, setup: Setup): State {
    match s.stop
    case Free => s
    case Encoded(line, route, early) =>
      if !route then s.(stop := Looked(line, false, early, s.waiting, !s.begun.Running?))
      else if Reaches(s) then s.(stop := Tested(line, early))
      else s.(stop := Free)
    case Tested(line, early) => s.(stop := Looked(line, true, early, s.waiting, !s.begun.Running?))
    case Looked(line, route, early, opening, unseen) =>
      if route || Reaches(s) then Sent(s, opening, [line], setup.locked).(stop := Free) else s.(stop := Free)
  }

  /** A stop with nothing in between. */
  function Stopped(s: State, route: bool, setup: Setup): State {
    StopMoved(StopMoved(StopMoved(Turned(s, StopBegins(route), setup), setup), setup), setup)
  }

  lemma StopUndisturbed(s: State, route: bool, setup: Setup)
    requires s.stop.Free?
    ensures var e := StopEncoded(s, route, setup);
            Stopped(s, route, setup)
            == if Reaches(s) then Sent(e, s.waiting, [e.stop.line], setup.locked).(stop := Free) else e.(stop := Free)
  {
    hide Passed, C.After;
  }

  /** It goes out at once behind a waiting opening, motion lock or not, or is not sent while there is nobody to send to. */
  lemma StopIsHandedOver(s: State, route: bool, setup: Setup)
    requires s.stop.Free? && (s.waiting.Some? ==> s.waiting.value.intent == HALT)
    ensures var t := Stopped(s, route, setup);
            && t.stop.Free? && t.sender.intent == HALT && t.sender.number == s.sender.number + 1
            && (if Reaches(s) then
                  && t.waiting.None?
                  && t.wire == s.wire + Maybe(s.waiting) + [Line(s.sender.number, Intent(StopKind(route), []))]
                else t.wire == s.wire && t.waiting == s.waiting)
  {
    StopUndisturbed(s, route, setup);
    var line := Line(s.sender.number, Intent(StopKind(route), []));
    StopsPass(Maybe(s.waiting), line, setup.locked);
    hide Passed, StopMoved;
  }

  function Played(s: State, turns: seq<Turn>, setup: Setup): State
    decreases |turns|
  {
    if turns == [] then s else Played(Turned(s, turns[0], setup), turns[1..], setup)
  }

  function Start(peer: bool): State {
    State(Sender(HALT, [], None, None, 1), Before, peer, None, Free, [], None, 0)
  }

  // ----- the objects -----

  class Link {
    const commander: Commander
    const motionLock: bool
    var begun: Begun
    var peer: bool                     // the robot's address is known
    var sessionOpen: Option<Line>      // stored, not sent yet
    var stop: Stop

    ghost var wire: seq<Line>
    ghost var session: Option<Line>
    ghost var before: nat

    ghost function Abs(): State
      reads this, commander
    {
      State(commander.Abs(), begun, peer, sessionOpen, stop, wire, session, before)
    }

    ghost function Rules(): Setup {
      Setup(commander.period, motionLock)
    }

    constructor (period: int, motionLock: bool, peer: bool)
      requires period > 0
      ensures Abs() == Start(peer) && Rules() == Setup(period, motionLock) && fresh(commander)
    {
      commander := new Commander(period, 1);
      this.motionLock, this.peer := motionLock, peer;
      begun, sessionOpen, stop := Before, None, Free;
      wire, session, before := [], None, 0;
    }

    /** `begin`, first step. */
    method SocketIsSet()
      requires begun.Before?
      modifies this`begun
      ensures Abs() == Turned(old(Abs()), SetSocket, Rules())
    {
      begun := SocketSet;
    }

    /** `begin`, second step: `open_session` encodes the opening STOP. */
    method OpeningIsEncoded()
      requires begun.SocketSet?
      modifies this`begun, this`session, commander
      ensures Abs() == Turned(old(Abs()), EncodeOpening, Rules())
    {
      var line := commander.Now(STOP);
      begun := OpeningEncoded(line);
      session := Some(line);
    }

    /** `begin`, third step: the opening waits to be sent with the first lines that go out. */
    method OpeningIsStored()
      requires begun.OpeningEncoded?
      modifies this`begun, this`sessionOpen
      ensures Abs() == Turned(old(Abs()), StoreOpening, Rules())
    {
      sessionOpen := Some(begun.line);
      begun := Running;
    }

    method PeerIsLearned()
      requires begun.Running?
      modifies this`peer
      ensures Abs() == Turned(old(Abs()), LearnPeer, Rules())
    {
      peer := true;
    }

    /** One tick of the loop. */
    method Step(now: int) returns (lines: seq<Line>)
      requires begun.Running? && stop.Free? && commander.period > 0
      modifies this`sessionOpen, this`wire, commander
      ensures Abs() == Turned(old(Abs()), Ticked(now), Rules()) && lines == Lines(old(commander.Abs()), Tick(now))
      ensures peer ==> wire == old(wire) + Passed(Maybe(old(sessionOpen)) + lines, motionLock) && sessionOpen.None?
      ensures !peer ==> wire == old(wire) && sessionOpen == old(sessionOpen)
    {
      lines := commander.Fire(now);
      if !peer {
        return;
      }
      var all := lines;
      if sessionOpen.Some? {
        all := [sessionOpen.value] + lines;
        sessionOpen := None;
      }
      assert all == Maybe(old(sessionOpen)) + lines;
      if all == [] {
        return;
      }
      wire := wire + Passed(all, motionLock);
    }

    /** A stop, undisturbed: the line is encoded, the opening looked for, socket and peer tested - the last two in either
        order. */
    method StopNow(route: bool) returns (line: Line)
      requires stop.Free?
      modifies this`sessionOpen, this`wire, this`before, commander
      ensures Abs() == Stopped(old(Abs()), route, Rules())
      ensures line == Line(old(commander.number), Intent(StopKind(route), []))
    {
      StopUndisturbed(Abs(), route, Rules());
      hide Stopped, Passed;
      line := commander.Now(StopKind(route));
      if begun.Before? || begun.SocketSet? {
        before := before + 1;
      }
      if !begun.Before? && peer {
        var lines := if sessionOpen.None? then [line] else [sessionOpen.value, line];
        assert lines == Maybe(sessionOpen) + [line];
        sessionOpen := None;
        wire := wire + Passed(lines, motionLock);
      }
    }

    /** `send_emergency_stop` */
    method EmergencyStop() returns (line: Line)
      requires stop.Free? && (sessionOpen.Some? ==> sessionOpen.value.intent == HALT)
      modifies this`sessionOpen, this`wire, this`before, commander
      ensures line.intent.kind == ESTOP && line.number == old(commander.number) && commander.intent == HALT
      ensures !begun.Before? && peer ==> wire == old(wire) + Maybe(old(sessionOpen)) + [line] && sessionOpen.None?
      ensures begun.Before? || !peer ==> wire == old(wire) && sessionOpen == old(sessionOpen)
    {
      StopIsHandedOver(Abs(), false, Rules());
      hide Stopped;
      line := StopNow(false);
    }

    /** The sending part of `ask_route_stop`. */
    method RouteStop() returns (line: Line)
      requires stop.Free? && (sessionOpen.Some? ==> sessionOpen.value.intent == HALT)
      modifies this`sessionOpen, this`wire, this`before, commander
      ensures line.intent.kind == STOP && line.number == old(commander.number) && commander.intent == HALT
      ensures !begun.Before? && peer ==> wire == old(wire) + Maybe(old(sessionOpen)) + [line] && sessionOpen.None?
      ensures begun.Before? || !peer ==> wire == old(wire) && sessionOpen == old(sessionOpen)
    {
      StopIsHandedOver(Abs(), true, Rules());
      hide Stopped;
      line := StopNow(true);
    }
  }

  /** A stop passes the motion lock, and so does the session opening before it. */
  lemma StopsPass(opening: seq<Line>, line: Line, locked: bool)
    requires |opening| <= 1 && (forall l :: l in opening ==> l.intent == HALT) && Unlocked(line.intent.kind)
    ensures Passed(opening + [line], locked) == opening + [line]
  {
    assert Passed([line], locked) == [line];
    if opening != [] {
      assert (opening + [line])[1..] == [line];
    }
  }

  // ----- whole runs -----

  /** What the robot is promised: the numbers of everything handed over, and of the opening that must still go first, rise,
      and the first of them is the session's opening. */
  predicate Good(s: State) {
    var all := s.wire + Maybe(s.waiting);
    Increasing(all) && (all != [] ==> s.session.Some? && all[0] == s.session.value)
  }

  /** A stop sends, and it was encoded before the opening was, or looked for the opening before that was stored. */
  predicate Overtakes(s: State, turn: Turn) {
    turn.StopGoesOn? && s.stop.Looked? && (s.stop.route || Reaches(s)) && (s.stop.early || s.stop.unseen)
  }

  predicate Overtaken(s: State, turns: seq<Turn>, setup: Setup)
    decreases |turns|
  {
    turns != [] && (Overtakes(s, turns[0]) || Overtaken(Turned(s, turns[0], setup), turns[1..], setup))
  }

  predicate Waits(s: State) {
    match s.begun
    case Before => s.session.None? && s.wire == [] && s.waiting.None? && s.sender.number == 1 + s.before
    case SocketSet => s.session.None? && s.wire == [] && s.waiting.None? && s.sender.number == 1 + s.before
    case OpeningEncoded(line) => s.session == Some(line) && s.wire == [] && s.waiting.None?
    case Running =>
      && s.session.Some? && (s.waiting.Some? ==> s.waiting == s.session && s.wire == [])
      && (s.waiting.None? ==> s.wire != [] && s.wire[0] == s.session.value)
  }

  /** A stop in flight knows where its line stands among the others. */
  predicate InFlight(s: State) {
    match s.stop
    case Free => true
    case Encoded(line, route, early) => Placed(s, line, early) && line.intent.kind == StopKind(route)
    case Tested(line, early) => Placed(s, line, early) && line.intent.kind == STOP && Reaches(s)
    case Looked(line, route, early, opening, unseen) =>
      && Placed(s, line, early) && line.intent.kind == StopKind(route) && (route ==> Reaches(s))
      && (unseen ==> opening.None? && s.wire == []) && (!unseen ==> s.begun.Running? && opening == s.waiting)
  }

  predicate Placed(s: State, line: Line, early: bool) {
    && line.number < s.sender.number && Below(s.wire, line.number)
    && (s.session.Some? ==> if early then line.number < s.session.value.number else line.number > s.session.value.number)
    && (s.session.None? ==> early)
    && (early ==> s.wire == [])
  }

  predicate Inv(s: State) {
    && Increasing(s.wire) && Below(s.wire, s.sender.number) && Waits(s) && InFlight(s)
    && (s.session.Some? ==> s.session.value == Line(1 + s.before, HALT) && s.session.value.number < s.sender.number)
  }

  /** Too late: whatever comes, the first line handed over is not the opening, or the numbers fall. */
  predicate Spoiled(s: State) {
    && s.wire != []
    && (s.session.None? ==> s.wire[0].number < s.sender.number && !Opened(s.begun))
    && (s.session.Some? ==>
          Opened(s.begun) && (!Increasing(s.wire) || s.wire[0] != s.session.value))
  }

  lemma GoodWhileInv(s: State)
    requires Inv(s)
    ensures Good(s)
  {
  }

  lemma SpoiledIsBad(s: State)
    requires Spoiled(s)
    ensures !Good(s)
  {
    var all := s.wire + Maybe(s.waiting);
    if Increasing(all) {
      assert forall i :: 0 <= i < |s.wire| ==> s.wire[i] == all[i];
    }
  }

  lemma StopMovedKeeps(s: State, setup: Setup)
    requires Inv(s) && !Overtakes(s, StopGoesOn)
    ensures Inv(StopMoved(s, setup))
  {
    hide Increasing, Below;
    if s.stop.Looked? && (s.stop.route || Reaches(s)) {
      var line := s.stop.line;
      StopsPass(Maybe(s.stop.opening), line, setup.locked);
      BehindOpening(s.wire, s.waiting, line, s.sender.number);
    }
  }

  /** Handing over a line, behind the opening if that still waits, keeps the numbers rising. */
  lemma BehindOpening(wire: seq<Line>, waiting: Option<Line>, line: Line, number: int)
    requires Increasing(wire) && Below(wire, line.number) && line.number < number
    requires waiting.Some? ==> wire == [] && waiting.value.number < line.number
    ensures Increasing(wire + (Maybe(waiting) + [line])) && Below(wire + (Maybe(waiting) + [line]), number)
  {
  }

  lemma TickKeeps(s: State, now: int, setup: Setup)
    requires Inv(s) && s.begun.Running? && s.stop.Free?
    ensures Inv(TickSent(s, now, setup))
  {
    hide Increasing, From, Below, Passed, Lines, C.After;
    var lines := Lines(s.sender, Tick(now));
    var high := TickSent(s, now, setup).sender.number;
    TickNumbers(s.sender, setup.period, now);
    BelowMore(s.wire, s.sender.number, high);
    HandedOver(s.wire, s.waiting, lines, setup.locked, s.sender.number, high);
  }

  lemma BelowMore(lines: seq<Line>, low: int, high: int)
    requires Below(lines, low) && low <= high
    ensures Below(lines, high)
  {
  }

  /** Lines handed over behind the opening, if that still waits, keep the numbers rising and the first line first. */
  lemma HandedOver(wire: seq<Line>, waiting: Option<Line>, lines: seq<Line>, locked: bool, number: int, high: int)
    requires Increasing(wire) && Below(wire, number) && number <= high
    requires waiting.Some? ==> wire == [] && waiting.value.number < number && waiting.value.intent == HALT
    requires Increasing(lines) && From(lines, number) && Below(lines, high)
    ensures var handed := wire + Passed(Maybe(waiting) + lines, locked);
            && Increasing(handed) && Below(handed, high)
            && (waiting.Some? ==> handed != [] && handed[0] == waiting.value)
            && (wire != [] ==> handed != [] && handed[0] == wire[0])
  {
    var all := Maybe(waiting) + lines;
    if waiting.Some? {
      InFront(waiting.value, lines);
      var low := waiting.value.number;
      assert Increasing(all) && From(all, low) && Below(all, high);
      PassedKeeps(all, locked, low, high);
    } else {
      assert all == lines;
      PassedKeeps(all, locked, number, high);
      Append(wire, Passed(all, locked), number);
      BelowBoth(wire, Passed(all, locked), number, high);
    }
  }

  lemma BelowBoth(a: seq<Line>, b: seq<Line>, low: int, high: int)
    requires Below(a, low) && low <= high && Below(b, high)
    ensures Below(a + b, high)
  {
  }

  lemma TickNumbers(s: Sender, period: int, now: int)
    ensures var lines := Lines(s, Tick(now));
            Increasing(lines) && From(lines, s.number) && Below(lines, C.After(s, period, Tick(now)).number)
    ensures s.number <= C.After(s, period, Tick(now)).number
  {
  }

  lemma TurnKeeps(s: State, turn: Turn, setup: Setup)
    requires Inv(s) && !Overtakes(s, turn)
    ensures Inv(Turned(s, turn, setup))
  {
    hide StopMoved, TickSent, Increasing;
    match turn
    case Ticked(now) => if s.begun.Running? && s.stop.Free? { TickKeeps(s, now, setup); }
    case StopGoesOn => StopMovedKeeps(s, setup);
    case _ =>
  }

  lemma OvertakingSpoils(s: State, setup: Setup)
    requires Inv(s) && Overtakes(s, StopGoesOn)
    ensures Spoiled(StopMoved(s, setup))
  {
    var line, opening := s.stop.line, s.stop.opening;
    StopsPass(Maybe(opening), line, setup.locked);
    var wire := s.wire + (Maybe(opening) + [line]);
    if opening.Some? {
      assert wire[0] == opening.value && wire[1] == line;
    } else {
      assert wire[0] == line;
    }
  }

  predicate Opened(begun: Begun) {
    !begun.Before? && !begun.SocketSet?
  }

  /** No turn takes back what was handed over or a number given out, and the opening is encoded once. */
  lemma TurnExtends(s: State, turn: Turn, setup: Setup)
    ensures var t := Turned(s, turn, setup);
            && s.wire <= t.wire && t.sender.number >= s.sender.number
            && (if turn.EncodeOpening? && s.begun.SocketSet? then t.session == Some(Line(s.sender.number, HALT)) && Opened(t.begun)
                else t.session == s.session && Opened(t.begun) == Opened(s.begun))
  {
    hide Passed, Lines;
  }

  lemma PrefixIncreasing(a: seq<Line>, b: seq<Line>)
    requires a <= b && Increasing(b)
    ensures Increasing(a)
  {
    assert forall i :: 0 <= i < |a| ==> a[i] == b[i];
  }

  lemma SpoiledStays(s: State, turn: Turn, setup: Setup)
    requires Spoiled(s)
    ensures Spoiled(Turned(s, turn, setup))
  {
    hide Turned, Increasing;
    var t := Turned(s, turn, setup);
    TurnExtends(s, turn, setup);
    if Increasing(t.wire) {
      PrefixIncreasing(s.wire, t.wire);
    }
  }

  lemma {:induction false} SpoiledForever(s: State, turns: seq<Turn>, setup: Setup)
    requires Spoiled(s)
    ensures Spoiled(Played(s, turns, setup))
    decreases |turns|
  {
    hide Spoiled, Turned;
    if turns != [] {
      SpoiledStays(s, turns[0], setup);
      SpoiledForever(Turned(s, turns[0], setup), turns[1..], setup);
    }
  }

  /** Any interleaving of the steps of `begin` with ticks, stops and everything that may be queued: the robot gets the
      opening first and rising numbers if and only if no stop that sends was encoded before the opening or looked for it
      before it was stored. The opening's number is one more than the lines encoded before it. */
  lemma {:induction false} Interleaving(s: State, turns: seq<Turn>, setup: Setup)
    requires Inv(s)
    ensures Good(Played(s, turns, setup)) <==> !Overtaken(s, turns, setup)
    ensures !Overtaken(s, turns, setup) ==> Inv(Played(s, turns, setup))
    decreases |turns|
  {
    hide Inv, Good, Spoiled, Turned, Overtakes;
    if turns == [] {
      GoodWhileInv(s);
    } else {
      var t := Turned(s, turns[0], setup);
      if Overtakes(s, turns[0]) {
        OvertakingSpoilsTurn(s, turns[0], setup);
        SpoiledForever(t, turns[1..], setup);
        SpoiledIsBad(Played(t, turns[1..], setup));
      } else {
        TurnKeeps(s, turns[0], setup);
        Interleaving(t, turns[1..], setup);
      }
    }
  }

  lemma OvertakingSpoilsTurn(s: State, turn: Turn, setup: Setup)
    requires Inv(s) && Overtakes(s, turn)
    ensures Spoiled(Turned(s, turn, setup))
  {
    hide StopMoved, Spoiled;
    OvertakingSpoils(s, setup);
  }

  lemma StartIsGood(peer: bool)
    ensures Inv(Start(peer))
  {
  }

  lemma SixTurns(s: State, a: Turn, b: Turn, c: Turn, d: Turn, e: Turn, f: Turn, setup: Setup)
    ensures Played(s, [a, b, c, d, e, f], setup)
            == Turned(Turned(Turned(Turned(Turned(Turned(s, a, setup), b, setup), c, setup), d, setup), e, setup), f, setup)
  {
    hide Turned;
    var s1 := Turned(s, a, setup);
    var s2 := Turned(s1, b, setup);
    var s3 := Turned(s2, c, setup);
    assert Played(s, [a, b, c, d, e, f], setup) == Played(s1, [b, c, d, e, f], setup) by {
      assert [a, b, c, d, e, f][1..] == [b, c, d, e, f];
    }
    assert Played(s1, [b, c, d, e, f], setup) == Played(s2, [c, d, e, f], setup) by {
      assert [b, c, d, e, f][1..] == [c, d, e, f];
    }
    assert Played(s2, [c, d, e, f], setup) == Played(s3, [d, e, f], setup) by {
      assert [c, d, e, f][1..] == [d, e, f];
    }
    ThreeTurns(s3, d, e, f, setup);
  }

  lemma ThreeTurns(s: State, a: Turn, b: Turn, c: Turn, setup: Setup)
    ensures Played(s, [a, b, c], setup) == Turned(Turned(Turned(s, a, setup), b, setup), c, setup)
  {
    hide Turned;
    var s1 := Turned(s, a, setup);
    var s2 := Turned(s1, b, setup);
    assert Played(s, [a, b, c], setup) == Played(s1, [b, c], setup) by {
      assert [a, b, c][1..] == [b, c];
    }
    assert Played(s1, [b, c], setup) == Played(s2, [c], setup) by {
      assert [b, c][1..] == [c];
    }
    assert Played(s2, [c], setup) == Turned(s2, c, setup) by {
      assert [c][1..] == [];
    }
  }

  const EMERGENCY := Intent(ESTOP, [])

  /** An emergency stop between the socket and the opening goes out first. */
  lemma StopBeforeOpening(setup: Setup)
    ensures var end := Played(Start(true), [SetSocket, StopBegins(false), StopGoesOn, StopGoesOn, EncodeOpening, StoreOpening], setup);
            end.wire == [Line(1, EMERGENCY)] && end.waiting == Some(Line(2, HALT)) && !Good(end)
  {
    SixTurns(Start(true), SetSocket, StopBegins(false), StopGoesOn, StopGoesOn, EncodeOpening, StoreOpening, setup);
    StopsPass([], Line(1, EMERGENCY), setup.locked);
  }

  /** One that looks for the opening between its encoding and its storing erases it: it is never sent. */
  lemma StopErasesOpening(setup: Setup)
    ensures var end := Played(Start(true), [SetSocket, EncodeOpening, StopBegins(false), StopGoesOn, StoreOpening, StopGoesOn], setup);
            end.wire == [Line(2, EMERGENCY)] && end.waiting.None? && end.session == Some(Line(1, HALT)) && !Good(end)
  {
    SixTurns(Start(true), SetSocket, EncodeOpening, StopBegins(false), StopGoesOn, StoreOpening, StopGoesOn, setup);
    StopsPass([], Line(2, EMERGENCY), setup.locked);
  }

  /** One encoded before the opening that looks after the storing sends it, but then its own number is lower. */
  lemma StopFallsBehindOpening(setup: Setup)
    ensures var end := Played(Start(true), [StopBegins(false), SetSocket, EncodeOpening, StoreOpening, StopGoesOn, StopGoesOn], setup);
            end.wire == [Line(2, HALT), Line(1, EMERGENCY)] && !Good(end)
  {
    var opening, stop := Line(2, HALT), Line(1, EMERGENCY);
    SixTurns(Start(true), StopBegins(false), SetSocket, EncodeOpening, StoreOpening, StopGoesOn, StopGoesOn, setup);
    StopsPass([opening], stop, setup.locked);
    assert [opening] + [stop] == [opening, stop];
    var end := Played(Start(true), [StopBegins(false), SetSocket, EncodeOpening, StoreOpening, StopGoesOn, StopGoesOn], setup);
    hide Passed, Played, Turned, Good;
    FallingIsBad(end);
  }

  lemma FallingIsBad(s: State)
    requires |s.wire| == 2 && s.wire[0].number > s.wire[1].number
    ensures !Good(s)
  {
    var all := s.wire + Maybe(s.waiting);
    assert all[0] == s.wire[0] && all[1] == s.wire[1];
  }

  /** Once handed over the opening is never handed over again: if the socket refuses it, the robot never gets it. */
  lemma LostOpeningStaysLost(s: State, turns: seq<Turn>, setup: Setup, kept: seq<bool>)
    requires Inv(s) && s.wire != [] && !Overtaken(s, turns, setup)
    requires |kept| == |Played(s, turns, setup).wire|
    ensures var end := Played(s, turns, setup);
            && end.wire != [] && end.session.Some? && end.waiting.None?
            && (end.session.value in Kept(end.wire, kept) <==> kept[0])
            && (kept[0] ==> Kept(end.wire, kept)[0] == end.session.value)
  {
    hide Turned, Overtaken, Good, Increasing, Below, Played;
    WireGrows(s, turns, setup);
    Interleaving(s, turns, setup);
    var end := Played(s, turns, setup);
    OpenedOnce(end);
    FirstIsKeptOnce(end.wire, kept);
  }

  lemma OpenedOnce(s: State)
    requires Inv(s) && s.wire != []
    ensures Increasing(s.wire) && s.waiting.None? && s.session.Some? && s.session.value == s.wire[0]
  {
  }

  lemma FirstIsKeptOnce(lines: seq<Line>, kept: seq<bool>)
    requires Increasing(lines) && |kept| == |lines| && lines != []
    ensures lines[0] in Kept(lines, kept) <==> kept[0]
    ensures kept[0] ==> Kept(lines, kept)[0] == lines[0]
  {
    DroppedStaysIncreasing(lines[1..], kept[1..]);
    assert lines[0] !in lines[1..];
  }

  lemma {:induction false} WireGrows(s: State, turns: seq<Turn>, setup: Setup)
    ensures s.wire <= Played(s, turns, setup).wire
    decreases |turns|
  {
    if turns != [] {
      assert s.wire <= Turned(s, turns[0], setup).wire;
      WireGrows(Turned(s, turns[0], setup), turns[1..], setup);
    }
  }

  /** Delivery may drop datagrams, never reorder what is left into a lower number. */
  lemma {:induction false} DroppedStaysIncreasing(lines: seq<Line>, kept: seq<bool>)
    requires Increasing(lines) && |kept| == |lines|
    ensures Increasing(Kept(lines, kept)) && forall l :: l in Kept(lines, kept) ==> l in lines
    decreases |lines|
  {
    if lines != [] {
      DroppedStaysIncreasing(lines[1..], kept[1..]);
      forall l | l in Kept(lines[1..], kept[1..])
        ensures l.number > lines[0].number
      {
        var i :| 0 <= i < |lines[1..]| && lines[1..][i] == l;
      }
      InFront(lines[0], Kept(lines[1..], kept[1..]));
    }
  }

  lemma InFront(first: Line, rest: seq<Line>)
    requires Increasing(rest) && forall l :: l in rest ==> l.number > first.number
    ensures Increasing([first] + rest)
  {
  }

  function Kept(lines: seq<Line>, kept: seq<bool>): seq<Line>
    requires |kept| == |lines|
    decreases |lines|
  {
    if lines == [] then [] else (if kept[0] then [lines[0]] else []) + Kept(lines[1..], kept[1..])
  }

  // ----- what is asked for goes out -----

  /** A tick, or something asked of the sender that goes out with a tick. */
  predicate Plain(turn: Turn) {
    turn.Ticked? || (turn.Ask? && !turn.act.Immediate? && !turn.act.Tick?)
  }

  function ActsOf(turns: seq<Turn>): seq<Act>
    requires forall i :: 0 <= i < |turns| ==> Plain(turns[i])
    decreases |turns|
  {
    if turns == [] then []
    else
      assert Plain(turns[0]);
      [if turns[0].Ticked? then Tick(turns[0].now) else turns[0].act] + ActsOf(turns[1..])
  }

  lemma {:induction false} PassedJoin(a: seq<Line>, b: seq<Line>, locked: bool)
    ensures Passed(a + b, locked) == Passed(a, locked) + Passed(b, locked)
    decreases |a|
  {
    if locked && a != [] {
      PassedJoin(a[1..], b, locked);
      assert (a + b)[1..] == a[1..] + b;
    } else if locked {
      assert a + b == b;
    }
  }

  /** With a robot to send to and no stop in between, a run hands over what the sender's own run emits, in order and filtered
      by the motion lock only, behind the waiting opening; the first tick takes the opening along. */
  lemma {:induction false} TicksAreHandedOver(s: State, turns: seq<Turn>, setup: Setup)
    requires s.begun.Running? && s.stop.Free? && s.peer
    requires forall i :: 0 <= i < |turns| ==> Plain(turns[i])
    ensures var (end, acts) := (Played(s, turns, setup), ActsOf(turns));
            var opening := if end.waiting.None? then Maybe(s.waiting) else [];
            && end.sender == C.Run(s.sender, setup.period, acts)
            && end.wire == s.wire + Passed(opening + C.AllLines(s.sender, setup.period, acts), setup.locked)
            && (end.waiting == s.waiting || end.waiting.None?)
            && ((exists i :: 0 <= i < |turns| && turns[i].Ticked?) ==> end.waiting.None?)
    decreases |turns|
  {
    hide C.After, Lines, Passed;
    if turns == [] {
      PassedNothing(setup.locked);
    } else {
      var (s1, rest, act) := (Turned(s, turns[0], setup), turns[1..], ActsOf([turns[0]])[0]);
      TicksAreHandedOver(s1, rest, setup);
      OnePlainTurn(s, turns[0], setup);
      FirstOfRun(s.sender, turns, setup);
      var more := C.AllLines(s1.sender, setup.period, ActsOf(rest));
      hide Turned, ActsOf, C.AllLines, C.Run;
      if turns[0].Ticked? {
        HandedOverInTwo(s.wire, Maybe(s.waiting), Lines(s.sender, act), more, setup.locked);
        assert [] + more == more;
      } else {
        assert turns[0].Ask?;
        assert [] + more == more;
      }
    }
  }

  lemma FirstOfRun(sender: Sender, turns: seq<Turn>, setup: Setup)
    requires turns != [] && forall i :: 0 <= i < |turns| ==> Plain(turns[i])
    ensures var (acts, act, rest) := (ActsOf(turns), ActsOf([turns[0]])[0], ActsOf(turns[1..]));
            var next := C.After(sender, setup.period, act);
            && C.Run(sender, setup.period, acts) == C.Run(next, setup.period, rest)
            && C.AllLines(sender, setup.period, acts) == Lines(sender, act) + C.AllLines(next, setup.period, rest)
  {
    hide C.After, Lines;
    assert ActsOf(turns)[1..] == ActsOf(turns[1..]);
  }

  lemma HandedOverInTwo(wire: seq<Line>, a: seq<Line>, b: seq<Line>, c: seq<Line>, locked: bool)
    ensures (wire + Passed(a + b, locked)) + Passed(c, locked) == wire + Passed(a + (b + c), locked)
  {
    PassedJoin(a + b, c, locked);
    hide Passed;
    assert (a + b) + c == a + (b + c);
  }

  lemma PassedNothing(locked: bool)
    ensures Passed([], locked) == []
  {
  }

  lemma OnePlainTurn(s: State, turn: Turn, setup: Setup)
    requires s.begun.Running? && s.stop.Free? && s.peer && Plain(turn)
    ensures var (t, act) := (Turned(s, turn, setup), ActsOf([turn])[0]);
            && t.begun == s.begun && t.stop == s.stop && t.peer
            && t.sender == C.After(s.sender, setup.period, act)
            && (turn.Ticked? ==> t.waiting.None? && t.wire == s.wire + Passed(Maybe(s.waiting) + Lines(s.sender, act), setup.locked))
            && (turn.Ask? ==> t.waiting == s.waiting && t.wire == s.wire && Lines(s.sender, act) == [])
  {
    hide C.After;
    PassedNothing(setup.locked);
  }

  /** A stop that has not been told that there is somebody to send to. */
  predicate Unaddressed(s: State) {
    !s.peer && !s.stop.Tested? && !(s.stop.Looked? && s.stop.route)
  }

  /** Until the robot's address is known nothing is handed over, and the opening goes on waiting. */
  lemma {:induction false} NobodyToSendTo(s: State, turns: seq<Turn>, setup: Setup)
    requires Unaddressed(s) && forall i :: 0 <= i < |turns| ==> !turns[i].LearnPeer?
    ensures Played(s, turns, setup).wire == s.wire
    ensures s.waiting.Some? && s.begun.Running? ==> Played(s, turns, setup).waiting == s.waiting
    decreases |turns|
  {
    hide C.After, Lines, Passed;
    if turns != [] {
      NobodyToSendTo(Turned(s, turns[0], setup), turns[1..], setup);
    }
  }

  /** A session that starts undisturbed and then learns the robot's address opens with its first tick. */
  lemma SessionOpens(setup: Setup, now: int)
    requires setup.period > 0
    ensures var end := Played(Start(false), [SetSocket, EncodeOpening, StoreOpening, LearnPeer, Ticked(now), Ticked(now)], setup);
            end.wire == [Line(1, HALT), Line(2, HALT)] && end.waiting.None? && end.session == Some(Line(1, HALT))
  {
    SixTurns(Start(false), SetSocket, EncodeOpening, StoreOpening, LearnPeer, Ticked(now), Ticked(now), setup);
    var s := Start(false).(sender := C.After(Start(false).sender, setup.period, Immediate(STOP)), begun := Running, peer := true,
                           waiting := Some(Line(1, HALT)), session := Some(Line(1, HALT)));
    assert Lines(s.sender, Tick(now)) == [Line(2, HALT)];
    StopsPass([Line(1, HALT)], Line(2, HALT), setup.locked);
  }
}
