/**
 The Emotional Charades round state machine: the component's state record
 and one pure transition per event. The five events are the start, pause
 and exit buttons, the one-second countdown tick and the half-second
 detection tick; every random draw is an explicit argument.
 */
module Game {

  import opened Emotions
  import opened Readings

  datatype Phase = Menu | Playing | Paused

  datatype State = State(
    phase: Phase,
    score: int,
    round: int,
    timeLeft: int,
    target: Emotion,
    cameraActive: bool,
    readings: seq<Reading>
  )

  /** Length of a game in seconds, and the value the clock is reset to. */
  const RoundSeconds: int := 60

  /** A target reading must strictly exceed this confidence to score. */
  const AwardThreshold: real := 0.7

  /** The fewest and the most points one award can bring. */
  const MinAward: int := 70
  const MaxAward: int := 100

  /** The component's state when it is first shown. */
  const Initial: State := State(Menu, 0, 1, RoundSeconds, Happy, true, InitialReadings)

  /**
   Points for a detected confidence: `c * 100` rounded to the nearest
   integer, halves rounding up as JavaScript's `Math.round` does.
   */
  function Points(c: real): (p: int)
    ensures p as real - 0.5 <= c * 100.0 < p as real + 0.5
    ensures AwardThreshold < c ==> MinAward <= p
    ensures c < 1.0 ==> p <= MaxAward
  {
    (c * 100.0 + 0.5).Floor
  }

  /**
   The start button: turns the camera on, enters play with a fresh clock,
   score and round, and draws a new target. The readings are untouched.
   */
  function StartGame(s: State, draw: real): (t: State)
    requires InUnit(draw)
    ensures t.phase == Playing && t.cameraActive
    ensures t.score == 0 && t.round == 1 && t.timeLeft == RoundSeconds
    ensures t.target == Draw(draw)
    ensures t.readings == s.readings
  {
    s.(cameraActive := true, phase := Playing, timeLeft := RoundSeconds,
       score := 0, round := 1, target := Draw(draw))
  }

  /**
   The pause button, a toggle: playing becomes paused and every other
   phase, the menu included, becomes playing. Nothing else changes.
   */
  function PauseGame(s: State): (t: State)
    ensures s.phase == Playing ==> t.phase == Paused
    ensures s.phase != Playing ==> t.phase == Playing
    ensures t.(phase := s.phase) == s
  {
    s.(phase := if s.phase == Playing then Paused else Playing)
  }

  /**
   The exit button: back to the menu with the camera off and a fresh
   clock, score and round. Target and readings are kept.
   */
  function ResetGame(s: State): (t: State)
    ensures t.phase == Menu && !t.cameraActive
    ensures t.score == 0 && t.round == 1 && t.timeLeft == RoundSeconds
    ensures t.target == s.target && t.readings == s.readings
  {
    s.(phase := Menu, cameraActive := false, score := 0, round := 1,
       timeLeft := RoundSeconds)
  }

  /**
   The one-second tick. Outside play it does nothing. In play the clock
   goes down by one; on its last second the game returns to the menu and
   the clock is set back to 60, keeping score, round, target and camera.
   */
  function CountdownTick(s: State): (t: State)
    ensures s.phase != Playing ==> t == s
    ensures s.phase == Playing && s.timeLeft > 1 ==> t == s.(timeLeft := s.timeLeft - 1)
    ensures s.phase == Playing && s.timeLeft <= 1 ==>
      t == s.(phase := Menu, timeLeft := RoundSeconds)
  {
    if s.phase != Playing then s
    else if s.timeLeft <= 1 then s.(phase := Menu, timeLeft := RoundSeconds)
    else s.(timeLeft := s.timeLeft - 1)
  }

  /** Whether a lookup result is a target reading that earns points. */
  predicate Scores(found: Option<real>) {
    found.Some? && found.value > AwardThreshold
  }

  /**
   The half-second detection tick. Outside play it does nothing. In play
   every reading takes its draw from `draws` as new confidence; then, if
   the target's new confidence exceeds 0.7, its points are added, the
   round advances and `pick` draws the next target.
   */
  function DetectionTick(s: State, draws: seq<real>, pick: real): (t: State)
    requires |draws| == |s.readings|
    requires InUnit(pick)
    ensures s.phase != Playing ==> t == s
    ensures t.phase == s.phase && t.timeLeft == s.timeLeft && t.cameraActive == s.cameraActive
    ensures |t.readings| == |s.readings|
    ensures s.phase == Playing ==>
      forall i :: 0 <= i < |s.readings| ==>
        t.readings[i] == Reading(s.readings[i].emotion, draws[i])
    ensures s.phase == Playing && Scores(Find(t.readings, s.target)) ==>
      && t.score == s.score + Points(Find(t.readings, s.target).value)
      && t.round == s.round + 1
      && t.target == Draw(pick)
    ensures s.phase == Playing && !Scores(Find(t.readings, s.target)) ==>
      t.score == s.score && t.round == s.round && t.target == s.target
  {
    if s.phase != Playing then s
    else
      var refreshed := Refresh(s.readings, draws);
      var found := Find(refreshed, s.target);
      if Scores(found) then
        s.(readings := refreshed, score := s.score + Points(found.value),
           round := s.round + 1, target := Draw(pick))
      else
        s.(readings := refreshed)
  }

  /** The state invariant every reachable state keeps. */
  predicate Valid(s: State) {
    && 1 <= s.timeLeft <= RoundSeconds
    && (s.phase == Menu ==> s.timeLeft == RoundSeconds)
    && Labels(s.readings) == ReadingOrder
    && AllInUnit(s.readings)
    && 1 <= s.round
    && MinAward * (s.round - 1) <= s.score <= MaxAward * (s.round - 1)
  }

  /** The discrete events the component reacts to, with their random draws. */
  datatype Event =
    | Start(draw: real)
    | TogglePause
    | Exit
    | ClockTick
    | DetectTick(draws: seq<real>, pick: real)
  {
    /** Whether the event is one of the two timer ticks. */
    predicate IsTick() {
      ClockTick? || DetectTick?
    }

    /** Whether the event stays within a session (no start and no exit). */
    predicate InSession() {
      !Start? && !Exit?
    }
  }

  /** The event's draws are what `Math.random` can produce: seven for a detection. */
  predicate WellFormed(e: Event) {
    match e
    case Start(r) => InUnit(r)
    case DetectTick(ds, p) =>
      |ds| == |ReadingOrder| && (forall i :: 0 <= i < |ds| ==> InUnit(ds[i])) && InUnit(p)
    case _ => true
  }

  /** `n` one-second ticks as an event sequence. */
  function ClockTicks(n: nat): seq<Event> {
    seq(n, _ => ClockTick)
  }

  predicate AllWellFormed(es: seq<Event>) {
    forall i :: 0 <= i < |es| ==> WellFormed(es[i])
  }

  /** One event applied to the state. */
  function Step(s: State, e: Event): (t: State)
    requires |s.readings| == |ReadingOrder|
    requires WellFormed(e)
    ensures |t.readings| == |s.readings|
    ensures e.IsTick() && s.phase != Playing ==> t == s
  {
    match e
    case Start(r) => StartGame(s, r)
    case TogglePause => PauseGame(s)
    case Exit => ResetGame(s)
    case ClockTick => CountdownTick(s)
    case DetectTick(ds, p) => DetectionTick(s, ds, p)
  }

  /** A sequence of events applied in order. */
  function Run(s: State, es: seq<Event>): (t: State)
    requires |s.readings| == |ReadingOrder|
    requires AllWellFormed(es)
    ensures |t.readings| == |s.readings|
    decreases |es|
  {
    if es == [] then s
    else Run(Step(s, es[0]), es[1..])
  }

  /** `n` consecutive one-second ticks; they never touch the scoring fields. */
  function Countdown(s: State, n: nat): (t: State)
    ensures t.score == s.score && t.round == s.round && t.target == s.target
    ensures t.cameraActive == s.cameraActive && t.readings == s.readings
    ensures s.phase != Playing ==> t == s
    decreases n
  {
    if n == 0 then s else Countdown(CountdownTick(s), n - 1)
  }
}
