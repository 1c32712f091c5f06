/** The fixed-period command sender: a repeated intent, a queue of one-shot intents, absolute deadlines. */
module Commander {
  import opened Optional

  datatype Kind = STOP | ESTOP | RESET_SAFE | MOVE | POSE | LED | SOUND | ACTION | STATE | OTHER(name: string)

  /** What to send; `fields` stands for the command's own fields. */
  datatype Intent = Intent(kind: Kind, fields: seq<int>)

  /** One encoded line. */
  datatype Line = Line(number: int, intent: Intent)

  const HALT := Intent(STOP, [])

  datatype Sender = Sender(intent: Intent, pending: seq<Intent>, announced: Option<int>, nextDue: Option<int>, number: int)

  predicate Due(nextDue: Option<int>, now: int) {
    nextDue.None? || now >= nextDue.value
  }

  /** The deadline after a firing at `now`. */
  function NextDue(nextDue: Option<int>, period: int, now: int): int {
    if nextDue.None? then now + period
    else if nextDue.value + period <= now then now + period
    else nextDue.value + period
  }

  /** Consecutive numbers, one line per intent. */
  function Numbered(intents: seq<Intent>, first: int): (lines: seq<Line>)
    ensures |lines| == |intents|
  {
    seq(|intents|, i requires 0 <= i < |intents| => Line(first + i, intents[i]))
  }

  datatype Act =
    | Drive(fields: seq<int>)
    | Halt
    | Announce(state: int)
    | Once(shot: Intent)
    | OnceUnlessPending(shot: Intent)
    | Immediate(kind: Kind)          // emergency_stop, stop_now, open_session, clear_safe
    | Tick(now: int)

  function Queued(s: Sender, act: Act): seq<Intent> {
    match act
    case Announce(state) => if s.announced == Some(state) then [] else [Intent(STATE, [state])]
    case Once(shot) => [shot]
    case OnceUnlessPending(shot) => if exists i :: 0 <= i < |s.pending| && s.pending[i].kind == shot.kind then [] else [shot]
    case _ => []
  }

  function Lines(s: Sender, act: Act): seq<Line> {
    match act
    case Immediate(kind) => [Line(s.number, Intent(kind, []))]
    case Tick(now) => if Due(s.nextDue, now) then Numbered(s.pending + [s.intent], s.number) else []
    case _ => []
  }

  function After(s: Sender, period: int, act: Act): Sender {
    match act
    case Drive(fields) => s.(intent := Intent(MOVE, fields))
    case Halt => s.(intent := HALT)
    case Announce(state) => s.(pending := s.pending + Queued(s, act), announced := Some(state))
    case Once(_) => s.(pending := s.pending + Queued(s, act))
    case OnceUnlessPending(_) => s.(pending := s.pending + Queued(s, act))
    case Immediate(_) => s.(intent := HALT, number := s.number + 1)
    case Tick(now) =>
      if !Due(s.nextDue, now) then s
      else s.(pending := [], nextDue := Some(NextDue(s.nextDue, period, now)), number := s.number + |s.pending| + 1)
  }

  class Commander {
    const period: int
    var intent: Intent
    var pending: seq<Intent>
    var announced: Option<int>
    var nextDue: Option<int>
    var number: int          // the encoder's next sequence number
    var ticks: nat

    function Abs(): Sender
      reads this
    {
      Sender(intent, pending, announced, nextDue, number)
    }

    constructor (period: int, start: int)
      requires period > 0 && start >= 1
      ensures this.period == period && Abs() == Sender(HALT, [], None, None, start) && ticks == 0
    {
      this.period := period;
      intent, pending, announced, nextDue, number, ticks := HALT, [], None, None, start, 0;
    }

    method Encode(what: Intent) returns (line: Line)
      modifies this`number
      ensures line == Line(old(number), what) && number == old(number) + 1
    {
      line := Line(number, what);
      number := number + 1;
    }

    method DriveTo(fields: seq<int>)
      modifies this`intent
      ensures Abs() == After(old(Abs()), period, Drive(fields))
    {
      intent := Intent(MOVE, fields);
    }

    method Stand()
      modifies this`intent
      ensures Abs() == After(old(Abs()), period, Halt)
    {
      intent := HALT;
    }

    method AnnounceState(state: int)
      modifies this`pending, this`announced
      ensures Abs() == After(old(Abs()), period, Announce(state))
    {
      if Some(state) == announced {
        return;
      }
      pending := pending + [Intent(STATE, [state])];
      announced := Some(state);
    }

    method SendOnce(shot: Intent)
      modifies this`pending
      ensures Abs() == After(old(Abs()), period, Once(shot))
    {
      pending := pending + [shot];
    }

    method SendOnceUnlessPending(shot: Intent) returns (queued: bool)
      modifies this`pending
      ensures Abs() == After(old(Abs()), period, OnceUnlessPending(shot))
      ensures queued <==> forall i :: 0 <= i < |old(pending)| ==> old(pending)[i].kind != shot.kind
    {
      if exists i :: 0 <= i < |pending| && pending[i].kind == shot.kind {
        return false;
      }
      pending := pending + [shot];
      queued := true;
    }

    /** A line to be sent at once, ahead of the tick. */
    method Now(kind: Kind) returns (line: Line)
      modifies this`intent, this`number
      ensures Abs() == After(old(Abs()), period, Immediate(kind)) && [line] == Lines(old(Abs()), Immediate(kind))
    {
      intent := HALT;
      line := Encode(Intent(kind, []));
    }

    method Fire(now: int) returns (out: seq<Line>)
      requires period > 0
      modifies this`pending, this`nextDue, this`number, this`ticks
      ensures Abs() == After(old(Abs()), period, Tick(now)) && out == Lines(old(Abs()), Tick(now))
      ensures ticks == old(ticks) + if Due(old(nextDue), now) then 1 else 0
    {
      if nextDue.Some? && now < nextDue.value {
        return [];
      }
      if nextDue.None? {
        nextDue := Some(now + period);
      } else {
        nextDue := Some(nextDue.value + period);
        if nextDue.value <= now {
          nextDue := Some(now + period);
        }
      }
      var shots := pending;
      pending := [];
      out := [];
      for i := 0 to |shots|
        modifies this`number
        invariant out == Numbered(shots[..i], old(number)) && number == old(number) + i
      {
        var line := Encode(shots[i]);
        out := out + [line];
      }
      assert shots[..|shots|] == shots;
      assert Numbered(shots + [intent], old(number)) == out + [Line(number, intent)];
      var line := Encode(intent);
      out := out + [line];
      ticks := ticks + 1;
    }
  }

  // ----- deadlines -----

  /** The firings among the tick times of a run, with the deadline each one met. */
  function Firings(nextDue: Option<int>, period: int, nows: seq<int>): seq<int>
    decreases |nows|
  {
    if nows == [] then []
    else if Due(nextDue, nows[0]) then
      [nows[0]] + Firings(Some(NextDue(nextDue, period, nows[0])), period, nows[1..])
    else Firings(nextDue, period, nows[1..])
  }

  function DueAfter(nextDue: Option<int>, period: int, nows: seq<int>): Option<int>
    decreases |nows|
  {
    if nows == [] then nextDue
    else DueAfter(if Due(nextDue, nows[0]) then Some(NextDue(nextDue, period, nows[0])) else nextDue, period, nows[1..])
  }

  lemma NextDueWithinPeriod(nextDue: Option<int>, period: int, now: int)
    requires period > 0 && Due(nextDue, now)
    ensures now < NextDue(nextDue, period, now) <= now + period
    ensures nextDue.Some? ==> NextDue(nextDue, period, now) >= nextDue.value + period
  {
  }

  /** No tick comes a full period or more after the deadline it meets. */
  predicate Punctual(nextDue: Option<int>, period: int, nows: seq<int>)
    decreases |nows|
  {
    nows == []
    || ((nextDue.Some? ==> nows[0] < nextDue.value + period)
        && Punctual(if Due(nextDue, nows[0]) then Some(NextDue(nextDue, period, nows[0])) else nextDue, period, nows[1..]))
  }

  /** Deadlines accumulate: with no lateness of a full period the k-th is the first plus k periods, whatever each tick's
      own delay was. */
  lemma {:induction false} DeadlinesDoNotDrift(due: int, period: int, nows: seq<int>)
    requires period > 0 && Punctual(Some(due), period, nows)
    ensures DueAfter(Some(due), period, nows) == Some(due + |Firings(Some(due), period, nows)| * period)
    decreases |nows|
  {
    if nows != [] {
      if nows[0] >= due {
        DeadlinesDoNotDrift(due + period, period, nows[1..]);
        Distribute(period, |Firings(Some(due + period), period, nows[1..])|);
      } else {
        DeadlinesDoNotDrift(due, period, nows[1..]);
      }
    }
  }

  lemma Distribute(period: int, k: int)
    ensures period + k * period == (1 + k) * period
  {
  }

  /** However late the ticks come, the sender never catches up in a burst: while the deadline is ahead of `t`, the firings
      from then on, counted from 0, come more than k periods after `t`. */
  lemma {:induction false} NoBurst(t: int, due: int, period: int, nows: seq<int>, k: nat)
    requires period > 0 && t < due && k < |Firings(Some(due), period, nows)|
    ensures Firings(Some(due), period, nows)[k] > t + k * period
    decreases |nows|
  {
    if nows[0] >= due {
      NextDueWithinPeriod(Some(due), period, nows[0]);
      if k > 0 {
        NoBurst(t + period, NextDue(Some(due), period, nows[0]), period, nows[1..], k - 1);
        Distribute(period, k - 1);
      }
    } else {
      NoBurst(t, due, period, nows[1..], k);
    }
  }

  // ----- the queue -----

  function Run(s: Sender, period: int, acts: seq<Act>): Sender
    decreases |acts|
  {
    if acts == [] then s else Run(After(s, period, acts[0]), period, acts[1..])
  }

  /** Everything a run queues to be sent once. */
  function AllQueued(s: Sender, period: int, acts: seq<Act>): seq<Intent>
    decreases |acts|
  {
    if acts == [] then [] else Queued(s, acts[0]) + AllQueued(After(s, period, acts[0]), period, acts[1..])
  }

  /** What an act emits besides the repeated intent, which closes every non-empty output of a tick. */
  function Shots(s: Sender, act: Act): seq<Intent> {
    var lines := Lines(s, act);
    if act.Tick? && lines != [] then Intents(lines[..|lines| - 1]) else []
  }

  function AllShots(s: Sender, period: int, acts: seq<Act>): seq<Intent>
    decreases |acts|
  {
    if acts == [] then [] else Shots(s, acts[0]) + AllShots(After(s, period, acts[0]), period, acts[1..])
  }

  function Intents(lines: seq<Line>): (intents: seq<Intent>)
    ensures |intents| == |lines|
  {
    seq(|lines|, i requires 0 <= i < |lines| => lines[i].intent)
  }

  lemma OneAct(s: Sender, period: int, act: Act)
    ensures s.pending + Queued(s, act) == Shots(s, act) + After(s, period, act).pending
  {
  }

  /** The repeated intent closes every tick that is due. */
  lemma TickEndsWithIntent(s: Sender, now: int)
    ensures Lines(s, Tick(now)) == [] <==> !Due(s.nextDue, now)
    ensures Lines(s, Tick(now)) != [] ==> Lines(s, Tick(now))[|Lines(s, Tick(now))| - 1].intent == s.intent
  {
  }

  lemma Regroup<T>(a: seq<T>, b: seq<T>, c: seq<T>)
    ensures (a + b) + c == a + (b + c)
  {
  }

  /** Every one-shot is emitted exactly once, in the order it was queued, or is still waiting at the end. */
  lemma {:induction false} ShotsExactlyOnce(s: Sender, period: int, acts: seq<Act>)
    ensures AllShots(s, period, acts) + Run(s, period, acts).pending == s.pending + AllQueued(s, period, acts)
    decreases |acts|
  {
    hide After, Queued, Shots;
    if acts != [] {
      var s1 := After(s, period, acts[0]);
      OneAct(s, period, acts[0]);
      ShotsExactlyOnce(s1, period, acts[1..]);
      Regroup(s.pending, Queued(s, acts[0]), AllQueued(s1, period, acts[1..]));
      Regroup(Shots(s, acts[0]), s1.pending, AllQueued(s1, period, acts[1..]));
      Regroup(Shots(s, acts[0]), AllShots(s1, period, acts[1..]), Run(s, period, acts).pending);
    }
  }

  /** Unless something is sent ahead of the ticks, the robot hears the numbers in one unbroken row. */
  function AllLines(s: Sender, period: int, acts: seq<Act>): seq<Line>
    decreases |acts|
  {
    if acts == [] then [] else Lines(s, acts[0]) + AllLines(After(s, period, acts[0]), period, acts[1..])
  }

  lemma {:induction false} NumbersInARow(s: Sender, period: int, acts: seq<Act>)
    ensures Run(s, period, acts).number == s.number + |AllLines(s, period, acts)|
    ensures forall i :: 0 <= i < |AllLines(s, period, acts)| ==> AllLines(s, period, acts)[i].number == s.number + i
    decreases |acts|
  {
    if acts != [] {
      NumbersInARow(After(s, period, acts[0]), period, acts[1..]);
    }
  }

  // ----- what a run leaves -----

  /** The acts that choose the repeated intent. */
  predicate Steers(act: Act) {
    act.Drive? || act.Halt? || act.Immediate?
  }

  /** The last act that steers decides what every tick from then on ends with: the MOVE it names, or STOP. */
  lemma {:induction false} LastOneSteers(s: Sender, period: int, acts: seq<Act>, k: nat)
    requires k < |acts| && Steers(acts[k])
    requires forall i :: k < i < |acts| ==> !Steers(acts[i])
    ensures Run(s, period, acts).intent == if acts[k].Drive? then Intent(MOVE, acts[k].fields) else Intent(STOP, [])
    decreases |acts|
  {
    if k > 0 {
      LastOneSteers(After(s, period, acts[0]), period, acts[1..], k - 1);
    } else {
      NobodySteers(After(s, period, acts[0]), period, acts[1..]);
    }
  }

  lemma {:induction false} NobodySteers(s: Sender, period: int, acts: seq<Act>)
    requires forall i :: 0 <= i < |acts| ==> !Steers(acts[i])
    ensures Run(s, period, acts).intent == s.intent
    decreases |acts|
  {
    if acts != [] {
      NobodySteers(After(s, period, acts[0]), period, acts[1..]);
    }
  }

  /** Announcing a state queues it exactly if the last state announced, however long ago, is another one. */
  lemma {:induction false} QueuedOncePerChange(s: Sender, period: int, acts: seq<Act>, k: nat, state: int)
    requires k < |acts| && acts[k].Announce?
    requires forall i :: k < i < |acts| ==> !acts[i].Announce?
    ensures Queued(Run(s, period, acts), Announce(state)) == if acts[k].state == state then [] else [Intent(STATE, [state])]
    decreases |acts|
  {
    if k > 0 {
      QueuedOncePerChange(After(s, period, acts[0]), period, acts[1..], k - 1, state);
    } else {
      NoneAnnounced(After(s, period, acts[0]), period, acts[1..]);
    }
  }

  lemma {:induction false} NoneAnnounced(s: Sender, period: int, acts: seq<Act>)
    requires forall i :: 0 <= i < |acts| ==> !acts[i].Announce?
    ensures Run(s, period, acts).announced == s.announced
    decreases |acts|
  {
    if acts != [] {
      NoneAnnounced(After(s, period, acts[0]), period, acts[1..]);
    }
  }

  /** How many one-shots of a kind wait. */
  function Waiting(pending: seq<Intent>, kind: Kind): nat {
    if pending == [] then 0
    else Waiting(pending[..|pending| - 1], kind) + if pending[|pending| - 1].kind == kind then 1 else 0
  }

  lemma {:induction false} WaitingIff(pending: seq<Intent>, kind: Kind)
    ensures Waiting(pending, kind) > 0 <==> exists i :: 0 <= i < |pending| && pending[i].kind == kind
  {
    if pending != [] {
      WaitingIff(pending[..|pending| - 1], kind);
    }
  }

  /** A shot that is queued unless one of its kind waits never makes a second one wait, and what waited still does. */
  lemma OneOfAKind(s: Sender, period: int, shot: Intent)
    ensures var after := After(s, period, OnceUnlessPending(shot));
            && Waiting(after.pending, shot.kind) == (if Waiting(s.pending, shot.kind) == 0 then 1 else Waiting(s.pending, shot.kind))
            && s.pending <= after.pending
  {
    WaitingIff(s.pending, shot.kind);
    assert (s.pending + [shot])[..|s.pending|] == s.pending;
    assert Waiting(s.pending + [shot], shot.kind) == Waiting(s.pending, shot.kind) + 1;
    if Waiting(s.pending, shot.kind) > 0 {
      assert Queued(s, OnceUnlessPending(shot)) == [];
      assert After(s, period, OnceUnlessPending(shot)).pending == s.pending;
    }
  }
}
