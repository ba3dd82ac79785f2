/**
 Properties of the round state machine: the state invariant every event
 keeps, the inertness of the timers outside play, the pause toggle, the
 countdown's expiry, scoring and its coupling with the round counter, and
 a few concrete game scenarios.
 */
module GameProperties {

  import opened Emotions
  import opened Readings
  import opened Game

  /** Each label occurs exactly once in the draw list and once in the reading list. */
  lemma LabelListsAgree(e: Emotion)
    ensures e in DrawOrder && e in ReadingOrder
    ensures multiset(DrawOrder)[e] == 1 == multiset(ReadingOrder)[e]
  {
    match e
    case Happy =>
    case Sad =>
    case Angry =>
    case Surprised =>
    case Neutral =>
    case Fear =>
    case Disgust =>
  }

  /** The reading list is a permutation of the draw list. */
  lemma LabelListsPermute()
    ensures multiset(DrawOrder) == multiset(ReadingOrder)
  {
    forall e: Emotion
      ensures multiset(DrawOrder)[e] == multiset(ReadingOrder)[e]
    {
      LabelListsAgree(e);
    }
  }

  lemma InitialIsValid()
    ensures Valid(Initial)
  {
    InitialLabels();
  }

  /** In a valid state the lookup of the target's reading always succeeds. */
  lemma TargetAlwaysFound(s: State)
    requires Valid(s)
    ensures Find(s.readings, s.target).Some?
  {
    FindInReadingOrder(s.readings, s.target);
  }

  /**
   The detection tick in play, stated in terms of the draw that lands on
   the target's own position in the reading list: above 0.7 it brings
   between 70 and 100 points, one more round and a fresh target; otherwise
   score, round and target stay as they were. Either way the round moves
   exactly when the score does.
   */
  lemma DetectionAward(s: State, draws: seq<real>, pick: real)
    requires Valid(s) && s.phase == Playing
    requires WellFormed(DetectTick(draws, pick))
    ensures var t := DetectionTick(s, draws, pick);
      var c := draws[ReadingPosition(s.target)];
      && (c > AwardThreshold ==>
           && t.score == s.score + Points(c)
           && MinAward <= t.score - s.score <= MaxAward
           && t.round == s.round + 1
           && t.target == Draw(pick))
      && (c <= AwardThreshold ==>
           t.score == s.score && t.round == s.round && t.target == s.target)
      && (t.round == s.round + 1 <==> t.score > s.score)
      && (t.round == s.round <==> t.score == s.score)
  {
    FindAfterRefresh(s.readings, draws, s.target);
    var c := draws[ReadingPosition(s.target)];
    assert InUnit(c);
  }

  /** Every event keeps the state invariant, the clock bound 1..60 included. */
  lemma StepPreservesValid(s: State, e: Event)
    requires Valid(s)
    requires WellFormed(e)
    ensures Valid(Step(s, e))
  {
    match e
    case DetectTick(ds, p) =>
      if s.phase == Playing {
        RefreshPreservesLabels(s.readings, ds);
        RefreshInUnit(s.readings, ds);
        DetectionAward(s, ds, p);
      }
    case _ =>
  }

  /** Any sequence of events from a valid state ends in a valid state. */
  lemma {:induction false} RunPreservesValid(s: State, es: seq<Event>)
    requires Valid(s)
    requires AllWellFormed(es)
    ensures Valid(Run(s, es))
    decreases |es|
  {
    if es != [] {
      assert WellFormed(es[0]);
      StepPreservesValid(s, es[0]);
      assert AllWellFormed(es[1..]) by {
        forall i | 0 <= i < |es[1..]| ensures WellFormed(es[1..][i]) {
          assert es[1..][i] == es[i + 1];
        }
      }
      RunPreservesValid(Step(s, es[0]), es[1..]);
    }
  }

  /** Every state the component can reach from its initial state is valid. */
  lemma ReachableIsValid(es: seq<Event>)
    requires AllWellFormed(es)
    ensures Valid(Run(Initial, es))
  {
    InitialIsValid();
    RunPreservesValid(Initial, es);
  }

  /**
   The clock moves only by a one-second tick in play, or back to 60 by a
   start, an exit or the tick on the last second.
   */
  lemma ClockChangesOnlyByTickOrReset(s: State, e: Event)
    requires Valid(s)
    requires WellFormed(e)
    ensures var t := Step(s, e);
      || t.timeLeft == s.timeLeft
      || (t.timeLeft == RoundSeconds &&
          (e.Start? || e.Exit? || (e.ClockTick? && s.phase == Playing && s.timeLeft <= 1)))
      || (e.ClockTick? && s.phase == Playing && t.timeLeft == s.timeLeft - 1)
  {
  }

  /** Outside play, any run of timer ticks changes nothing at all. */
  lemma {:induction false} TicksInertUnlessPlaying(s: State, es: seq<Event>)
    requires s.phase != Playing
    requires |s.readings| == |ReadingOrder|
    requires AllWellFormed(es)
    requires forall i :: 0 <= i < |es| ==> es[i].IsTick()
    ensures Run(s, es) == s
    decreases |es|
  {
    if es != [] {
      assert WellFormed(es[0]) && es[0].IsTick();
      assert Step(s, es[0]) == s;
      assert forall i :: 0 <= i < |es[1..]| ==> es[1..][i] == es[i + 1];
      TicksInertUnlessPlaying(s, es[1..]);
    }
  }

  /** Pausing and then resuming restores the exact state; from the menu it does not. */
  lemma PauseResume(s: State)
    ensures s.phase != Menu ==> PauseGame(PauseGame(s)) == s
    ensures s.phase == Menu ==> PauseGame(PauseGame(s)) == s.(phase := Paused)
  {
  }

  /** Pausing, letting any ticks pass, and resuming restores the game: no clock drift. */
  lemma {:induction false} PausedTicksDoNotDrift(s: State, es: seq<Event>)
    requires s.phase == Playing
    requires |s.readings| == |ReadingOrder|
    requires AllWellFormed(es)
    requires forall i :: 0 <= i < |es| ==> es[i].IsTick()
    ensures PauseGame(Run(PauseGame(s), es)) == s
  {
    TicksInertUnlessPlaying(PauseGame(s), es);
  }

  /** Before the clock runs out, `k` ticks take exactly `k` seconds off it. */
  lemma {:induction false} CountdownDecrements(s: State, k: nat)
    requires s.phase == Playing
    requires k < s.timeLeft
    ensures Countdown(s, k) == s.(timeLeft := s.timeLeft - k)
    decreases k
  {
    if k > 0 {
      CountdownDecrements(CountdownTick(s), k - 1);
    }
  }

  /** Running `n` clock-tick events is the same as `n` countdown ticks. */
  lemma {:induction false} RunClockTicks(s: State, n: nat)
    requires |s.readings| == |ReadingOrder|
    ensures Run(s, ClockTicks(n)) == Countdown(s, n)
    decreases n
  {
    if n > 0 {
      assert ClockTicks(n)[0] == ClockTick;
      assert ClockTicks(n)[1..] == ClockTicks(n - 1);
      RunClockTicks(CountdownTick(s), n - 1);
    }
  }

  /**
   With `timeLeft` seconds on the clock, that many ticks end the game: the
   phase is the menu and the clock reads 60 again, with score, round,
   target, camera and readings as they were.
   */
  lemma {:induction false} CountdownExpires(s: State)
    requires s.phase == Playing
    requires 1 <= s.timeLeft
    ensures Countdown(s, s.timeLeft) == s.(phase := Menu, timeLeft := RoundSeconds)
    decreases s.timeLeft
  {
    if s.timeLeft > 1 {
      CountdownExpires(CountdownTick(s));
    }
  }

  /**
   Within a session (no start, no exit) the round never goes back, and the
   points gained are between 70 and 100 per round advanced: the score never
   decreases and moves only together with the round.
   */
  lemma {:induction false} SessionScoreTracksRounds(s: State, es: seq<Event>)
    requires Valid(s)
    requires AllWellFormed(es)
    requires forall i :: 0 <= i < |es| ==> es[i].InSession()
    ensures var t := Run(s, es);
      && s.round <= t.round
      && MinAward * (t.round - s.round) <= t.score - s.score <= MaxAward * (t.round - s.round)
    decreases |es|
  {
    if es != [] {
      var e := es[0];
      assert WellFormed(e) && e.InSession();
      var u := Step(s, e);
      StepPreservesValid(s, e);
      if e.DetectTick? && s.phase == Playing {
        DetectionAward(s, e.draws, e.pick);
      }
      assert u.round == s.round + 1 || (u.round == s.round && u.score == s.score);
      assert u.round == s.round + 1 ==> MinAward <= u.score - s.score <= MaxAward;
      assert forall i :: 0 <= i < |es[1..]| ==> es[1..][i] == es[i + 1];
      SessionScoreTracksRounds(u, es[1..]);
    }
  }

  /** Within a session the score never decreases. */
  lemma SessionScoreMonotone(s: State, es: seq<Event>)
    requires Valid(s)
    requires AllWellFormed(es)
    requires forall i :: 0 <= i < |es| ==> es[i].InSession()
    ensures s.score <= Run(s, es).score
  {
    SessionScoreTracksRounds(s, es);
  }

  /** Exit before start makes no difference, and exit twice is exit once. */
  lemma ResetAbsorbs(s: State, draw: real)
    requires InUnit(draw)
    ensures StartGame(ResetGame(s), draw) == StartGame(s, draw)
    ensures ResetGame(ResetGame(s)) == ResetGame(s)
    ensures ResetGame(PauseGame(s)) == ResetGame(s)
    ensures ResetGame(CountdownTick(s)) == ResetGame(s)
  {
  }

  /** Happy as target and a Happy confidence of 0.85: 85 points and round 2. */
  lemma ScenarioFirstAward(pick: real)
    requires InUnit(pick)
    ensures var s := StartGame(Initial, 0.0);
      var t := DetectionTick(s, [0.85, 0.1, 0.2, 0.3, 0.4, 0.5, 0.6], pick);
      s.target == Happy && t.score == 85 && t.round == 2 && t.target == Draw(pick)
  {
    var s := StartGame(Initial, 0.0);
    var ds := [0.85, 0.1, 0.2, 0.3, 0.4, 0.5, 0.6];
    assert DrawIndex(0.0) == 0;
    assert s.target == Happy && ReadingPosition(Happy) == 0;
    assert Valid(s) by {
      InitialIsValid();
    }
    assert WellFormed(DetectTick(ds, pick)) by {
      assert forall i :: 0 <= i < |ds| ==> 0.0 <= ds[i] <= 0.85;
    }
    var t := DetectionTick(s, ds, pick);
    DetectionAward(s, ds, pick);
    assert ds[ReadingPosition(s.target)] == 0.85;
    PointsAt85();
    assert t.score == 85 && t.round == 2 && t.target == Draw(pick);
  }

  lemma PointsAt85()
    ensures Points(0.85) == 85
  {
    assert (0.85 * 100.0 + 0.5) == 85.5;
  }

  /** A game with no qualifying reading ends after 60 ticks, score untouched. */
  lemma ScenarioTimerExpiry(draw: real)
    requires InUnit(draw)
    ensures var t := Run(StartGame(Initial, draw), ClockTicks(RoundSeconds));
      t.phase == Menu && t.timeLeft == RoundSeconds && t.score == 0 && t.round == 1
  {
    CountdownExpires(StartGame(Initial, draw));
    RunClockTicks(StartGame(Initial, draw), RoundSeconds);
  }

  /** Start, pause, five ticks, resume: the clock still reads 60. */
  lemma ScenarioPauseNoDrift(draw: real)
    requires InUnit(draw)
    ensures var s := StartGame(Initial, draw);
      var t := PauseGame(Run(PauseGame(s), [ClockTick, ClockTick, ClockTick, ClockTick, ClockTick]));
      t.timeLeft == RoundSeconds && t.phase == Playing
  {
    var ticks := [ClockTick, ClockTick, ClockTick, ClockTick, ClockTick];
    PausedTicksDoNotDrift(StartGame(Initial, draw), ticks);
  }
}
