/** The position the speech control shows for the line playing, kept as a start
    time and a rate, against the running time it stands for. */
module PositionClock {
  import opened Options
  import opened Reals

  datatype State = Idle | Playing | Held

  /** What the control keeps of the line. */
  datatype Model = Model(state: State, current: bool, paused: bool, position: real, since: Option<real>, rate: real)

  /** What changes it; the flags say how the player answered. */
  datatype Event =
    | LineStarts
    | LineHeld
    | LineEnds(kept: bool)
    | Play(unstopped: bool, resumed: bool)
    | Hold(paused: bool)
    | Stop
    | ToStart(done: bool)
    | Skip(seconds: real, done: bool)
    | RateSet(applied: real)
    | RateInSettings(applied: real)

  function Started(rate: real): Model { Model(Idle, false, false, 0.0, None, rate) }

  /** The position at a moment, as shown while a line is current. */
  function Shown(m: Model, now: real): real {
    m.position + if m.since.Some? then (now - m.since.value) * m.rate else 0.0
  }

  function Frozen(m: Model, now: real): Model { m.(position := Shown(m, now), since := None) }

  predicate Running(m: Model) { m.state == Playing && !m.paused }

  /** The line moved to `position` now, a held line's clock still stopped. */
  function At(m: Model, position: real, now: real): Model {
    m.(position := position, since := if Running(m) then Some(now) else None)
  }

  function NotBelowZero(x: real): (r: real)
    ensures x >= 0.0 ==> r == x
    ensures x <= 0.0 ==> r == 0.0
  {
    if x >= 0.0 then x else 0.0
  }

  function Next(m: Model, e: Event, now: real): Model {
    match e
    case LineStarts => m.(state := Playing, current := true, paused := false, position := 0.0, since := Some(now))
    case LineHeld => m.(state := Held, paused := false)
    case LineEnds(kept) => m.(state := Idle, paused := false, position := 0.0, since := None, current := kept)
    case Play(unstopped, resumed) =>
      if !unstopped && m.state == Held && m.paused && resumed
      then m.(state := Playing, paused := false, since := Some(now)) else m
    case Hold(paused) =>
      if m.state == Playing && paused then Frozen(m, now).(state := Held, paused := true) else m
    case Stop => m.(state := Idle, paused := false, position := 0.0, since := None)
    case ToStart(done) => if m.state != Idle && done then At(m, 0.0, now) else m
    case Skip(seconds, done) =>
      if m.state != Idle && done then At(m, NotBelowZero(Shown(m, now) + seconds), now) else m
    case RateSet(applied) =>
      Frozen(m, now).(rate := applied, since := if Running(m) then Some(now) else None)
    case RateInSettings(applied) => m.(rate := applied)
  }

  // ------------------------------------------------------------------ the meaning

  /** What an event does to the sound itself. */
  datatype Effect = Nothing | Begins | Over | Runs | Pauses | Moves(seconds: real) | Restarts | Turns(rate: real)

  function EffectOf(m: Model, e: Event): Effect {
    match e
    case LineStarts => Begins
    case LineHeld => Nothing
    case LineEnds(_) => Over
    case Play(unstopped, resumed) => if !unstopped && m.state == Held && m.paused && resumed then Runs else Nothing
    case Hold(paused) => if m.state == Playing && paused then Pauses else Nothing
    case Stop => Over
    case ToStart(done) => if m.state != Idle && done then Restarts else Nothing
    case Skip(seconds, done) => if m.state != Idle && done then Moves(seconds) else Nothing
    case RateSet(applied) => Turns(applied)
    case RateInSettings(applied) => Turns(applied)
  }

  /** A head that moves over the sound at `rate` while it runs; where it was at
      the last event. */
  datatype Head = Head(place: real, runs: bool, rate: real, at: real)

  /** It adds up the running time, by rate. */
  function Moved(h: Head, now: real): Head {
    h.(place := h.place + (if h.runs then (now - h.at) * h.rate else 0.0), at := now)
  }

  function Done(h: Head, e: Effect): Head {
    match e
    case Nothing => h
    case Begins => h.(place := 0.0, runs := true)
    case Over => h.(place := 0.0, runs := false)
    case Runs => h.(runs := true)
    case Pauses => h.(runs := false)
    case Moves(seconds) => h.(place := NotBelowZero(h.place + seconds))
    case Restarts => h.(place := 0.0)
    case Turns(rate) => h.(rate := rate)
  }

  predicate Agrees(m: Model, h: Head) {
    && (m.since.Some? <==> h.runs) && (h.runs <==> m.state == Playing) && (m.state == Playing ==> !m.paused)
    && m.rate == h.rate && Shown(m, h.at) == h.place
  }

  /** The narrator holds the next line only between lines, and the rate is not
      set in the settings window while a line runs. */
  predicate Expected(m: Model, e: Event) {
    && (e.LineHeld? ==> m.state == Idle || (m.state == Held && !m.paused))
    && (e.RateInSettings? ==> m.state != Playing)
  }

  lemma ShownMovesOn(m: Model, h: Head, now: real)
    requires Agrees(m, h)
    ensures Shown(m, now) == Moved(h, now).place && Agrees(m, Moved(h, now))
  {
    if m.since.Some? {
      InTwoParts(m.since.value, h.at, now, m.rate);
    }
  }

  lemma StepAgrees(m: Model, h: Head, e: Event, now: real)
    requires Agrees(m, h) && Expected(m, e)
    ensures Agrees(Next(m, e, now), Done(Moved(h, now), EffectOf(m, e)))
  {
    ShownMovesOn(m, h, now);
    ActAgrees(m, Moved(h, now), e, now);
  }

  /** The head already there, the event does the same to both. */
  lemma ActAgrees(m: Model, h: Head, e: Event, now: real)
    requires Agrees(m, h) && h.at == now && Expected(m, e)
    ensures Agrees(Next(m, e, now), Done(h, EffectOf(m, e)))
  {
    var next := Next(m, e, now);
    if next.since.None? || next.since == Some(now) { ShownJustNow(next, now); }
  }

  /** A clock that stands, or starts now, shows the position kept. */
  lemma ShownJustNow(m: Model, now: real)
    requires m.since.None? || m.since == Some(now)
    ensures Shown(m, now) == m.position
  {
    NoTime(now, m.rate);
  }

  datatype Timed = Timed(event: Event, at: real)

  datatype Pair = Pair(model: Model, head: Head)

  function AfterEvent(p: Pair, e: Timed): Pair {
    Pair(Next(p.model, e.event, e.at), Done(Moved(p.head, e.at), EffectOf(p.model, e.event)))
  }

  function AfterRun(p: Pair, events: seq<Timed>): Pair
    decreases |events|
  {
    if events == [] then p else AfterRun(AfterEvent(p, events[0]), events[1..])
  }

  predicate AllExpected(p: Pair, events: seq<Timed>)
    decreases |events|
  {
    events == [] || (Expected(p.model, events[0].event) && AllExpected(AfterEvent(p, events[0]), events[1..]))
  }

  /** After every run of events the position shown is the running time since
      the line's start, weighted by the rate, with the seeks, each no further
      back than the start: at that moment and at every later one. */
  lemma {:induction false} ShownIsTheRunningTime(p: Pair, events: seq<Timed>, now: real)
    requires Agrees(p.model, p.head) && AllExpected(p, events)
    ensures Agrees(AfterRun(p, events).model, AfterRun(p, events).head)
    ensures Shown(AfterRun(p, events).model, now) == Moved(AfterRun(p, events).head, now).place
    decreases |events|
  {
    if events == [] {
      ShownMovesOn(p.model, p.head, now);
    } else {
      StepAgrees(p.model, p.head, events[0].event, events[0].at);
      ShownIsTheRunningTime(AfterEvent(p, events[0]), events[1..], now);
    }
  }

  /** A line that plays, or was paused and can go on, has a position to show. */
  predicate HasALine(m: Model) { m.state == Playing || (m.state == Held && m.paused) ==> m.current }

  lemma {:induction false} APlayingLineHasAPosition(p: Pair, events: seq<Timed>)
    requires HasALine(p.model)
    ensures HasALine(AfterRun(p, events).model)
    decreases |events|
  {
    if events != [] { APlayingLineHasAPosition(AfterEvent(p, events[0]), events[1..]); }
  }

  /** So it is for every run of a control just made. */
  lemma AFreshControlShowsTheRunningTime(rate: real, made: real, events: seq<Timed>, now: real)
    requires AllExpected(Fresh(rate, made), events)
    ensures var p := AfterRun(Fresh(rate, made), events); HasALine(p.model) && Shown(p.model, now) == Moved(p.head, now).place
  {
    APlayingLineHasAPosition(Fresh(rate, made), events);
    ShownIsTheRunningTime(Fresh(rate, made), events, now);
  }

  function Fresh(rate: real, made: real): Pair { Pair(Started(rate), Head(0.0, false, rate, made)) }

  /** A pause, a resume and a rate set at the control show the same position
      just before and just after. */
  lemma NoJump(m: Model, h: Head, e: Event, now: real)
    requires Agrees(m, h) && (e.Play? || e.Hold? || e.RateSet?)
    ensures Shown(Next(m, e, now), now) == Shown(m, now)
  {
    var next := Next(m, e, now);
    if next.since.None? || next.since == Some(now) { ShownJustNow(next, now); }
  }

  /** A pause and a play, and the line goes on from where it was. */
  lemma APausedLineGoesOn(m: Model, paused: real, resumed: real)
    requires m.state == Playing
    ensures var held := Next(m, Hold(true), paused); var on := Next(held, Play(false, true), resumed);
            && held.state == Held && held.current == m.current && held.rate == m.rate
            && on.state == Playing && !on.paused && on.current == m.current && on.rate == m.rate
            && Shown(on, resumed) == Shown(held, resumed) == Shown(m, paused)
  {
    NoTime(resumed, m.rate);
  }

  /** A line that ended or was stopped does not go on, and only an end that does
      not keep it takes it away. */
  lemma AnEndedLineDoesNotGoOn(m: Model, e: Event, at: real, play: Event, later: real)
    requires (e.LineEnds? || e.Stop?) && (play.Play? || play.Hold? || play.Skip? || play.ToStart?)
    ensures var ended := Next(m, e, at);
            && ended.state == Idle && !ended.paused && Shown(ended, later) == 0.0 && ended.rate == m.rate
            && ended.current == (if e.LineEnds? then e.kept else m.current)
            && Next(ended, play, later) == ended
  {
  }

  /** A rate set in the settings window is applied to the whole time since the
      clock last started: the position jumps unless the line does not run, the
      rate is the same or no time has passed. */
  lemma SettingsRateJumpsExactlyWhen(m: Model, h: Head, applied: real, now: real)
    requires Agrees(m, h)
    ensures Shown(Next(m, RateInSettings(applied), now), now) == Shown(m, now)
       <==> m.state != Playing || applied == m.rate || now == m.since.value
  {
    if m.state == Playing { SameProduct(now - m.since.value, applied, m.rate); }
  }

  /** Held in the middle of a line, the clock runs on, and a rate set then
      stops it for good: the narrator must hold only between lines. */
  lemma HeldInTheMiddle(m: Model, h: Head, applied: real, now: real, later: real)
    requires Agrees(m, h) && m.state == Playing && m.rate > 0.0 && applied > 0.0 && now < later
    ensures var held := Next(m, LineHeld, now); var turned := Next(held, RateSet(applied), now);
            && Shown(held, later) == Shown(m, later) && Shown(held, later) > Shown(held, now)
            && Shown(turned, later) == Shown(held, now)
  {
    InTwoParts(m.since.value, now, later, m.rate);
    Positive(later - now, m.rate);
  }

  // ------------------------------------------------------------------------ class

  class SpeechControl {
    var state: State
    var current: bool
    var paused: bool
    var position: real
    var since: Option<real>
    var rate: real

    function Now(): Model reads this { Model(state, current, paused, position, since, rate) }

    constructor (rate: real)
      ensures Now() == Started(rate)
    {
      state, current, paused, position, since, this.rate := Idle, false, false, 0.0, None, rate;
    }

    method LineStarted(now: real)
      modifies this
      ensures Now() == Next(old(Now()), LineStarts, now)
    {
      state, current, paused, position, since := Playing, true, false, 0.0, Some(now);
    }

    method LineIsHeld(now: real)
      modifies this
      ensures Now() == Next(old(Now()), LineHeld, now)
    {
      state, paused := Held, false;
    }

    method LineEnded(kept: bool, now: real)
      modifies this
      ensures Now() == Next(old(Now()), LineEnds(kept), now)
    {
      state, paused, position, since, current := Idle, false, 0.0, None, kept;
    }

    method Estimate(now: real) returns (p: real)
      ensures p == Shown(Now(), now)
    {
      p := position;
      if since.Some? { p := p + (now - since.value) * rate; }
    }

    /** Nothing is shown without a line, and the player's own position goes
        before the estimate. */
    method Position(told: Option<real>, now: real) returns (p: Option<real>)
      ensures p.None? <==> !current || state == Idle
      ensures p.Some? ==> p.value == told.GetOr(Shown(Now(), now))
    {
      if !current || state == Idle { return None; }
      var estimate := Estimate(now);
      return Some(if told.Some? then told.value else estimate);
    }

    method PressPlay(unstopped: bool, resumed: bool, now: real)
      modifies this
      ensures Now() == Next(old(Now()), Play(unstopped, resumed), now)
    {
      if unstopped { return; }
      if state == Held && paused {
        if resumed { state, paused, since := Playing, false, Some(now); }
      }
    }

    method PressHold(ok: bool, now: real)
      modifies this
      ensures Now() == Next(old(Now()), Hold(ok), now)
    {
      if state == Playing && ok {
        var p := Estimate(now);
        position, since, state, paused := p, None, Held, true;
      }
    }

    method PressStop(now: real)
      modifies this
      ensures Now() == Next(old(Now()), Stop, now)
    {
      state, paused, position, since := Idle, false, 0.0, None;
    }

    method RestartClock(p: real, now: real)
      modifies this`position, this`since
      ensures Now() == At(old(Now()), p, now)
    {
      var running := state == Playing && !paused;
      position, since := p, if running then Some(now) else None;
    }

    method PressStart(done: bool, now: real)
      modifies this
      ensures Now() == Next(old(Now()), ToStart(done), now)
    {
      if state != Idle && done { RestartClock(0.0, now); }
    }

    method PressSkip(seconds: real, done: bool, now: real)
      modifies this
      ensures Now() == Next(old(Now()), Skip(seconds, done), now)
    {
      if state != Idle && done {
        var p := Estimate(now);
        RestartClock(if p + seconds >= 0.0 then p + seconds else 0.0, now);
      }
    }

    method SetRate(applied: real, now: real)
      modifies this
      ensures Now() == Next(old(Now()), RateSet(applied), now)
    {
      var running := state == Playing && !paused;
      var p := Estimate(now);
      position, since, rate := p, None, applied;
      if running { since := Some(now); }
    }

    method SetRateInSettings(applied: real, now: real)
      modifies this
      ensures Now() == Next(old(Now()), RateInSettings(applied), now)
    {
      rate := applied;
    }
  }
}
