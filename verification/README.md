# Emotional Charades: the round state machine

Emotional Charades is a one-screen browser game. It shows the player a
target emotion to act out in front of the camera. It also shows a
confidence bar for each of seven emotion labels; a random number generator
stands in for a real classifier and supplies those confidences. This
project models the game's controller as pure Dafny functions. The state
record holds the phase (menu, playing, paused), score, round, seconds left,
target label, camera flag and the seven readings. Five events change it:

- the start button;
- the pause/resume toggle;
- the exit button;
- the one-second countdown tick;
- the half-second detection tick.

Each `setInterval` callback is taken as one atomic step. Every
`Math.random()` result is an explicit argument in `[0, 1)`:

- the draw that picks a target;
- the seven new confidences of a detection tick.

The two display helpers are modelled too: the emoji lookup with its neutral
fallback, and the three-band colour of a confidence bar.

Modules:

- `Emotions`: the label datatype, the uniform target draw `floor(r * 7)`,
  the emoji dictionary and the confidence colour bands.
- `Readings`: the reading list, the refresh that replaces every confidence,
  and the first-match lookup (`Array.prototype.find`).
- `Game`: the state, the initial values, one function per event, `Step`/`Run`
  over event sequences, and the state invariant `Valid`.
- `GameProperties`: the lemmas. They cover the invariant under every event,
  inert timers outside play, the pause toggle, countdown expiry, scoring and
  its coupling to the round, and three game scenarios.

The invariant `Valid` says:

- the clock is within 1..60, and reads 60 whenever the phase is the menu;
- the readings carry the seven labels in their fixed order, each with a
  confidence in `[0, 1)`;
- `70 * (round - 1) <= score <= 100 * (round - 1)`.

The last point holds because each award is `Math.round(c * 100)` for some
`c` in `(0.7, 1)`, so it lies between 70 and 100.

Behaviour of the code a reader might not expect:

- Exit keeps the target label and the readings; it does not reset the whole
  round state.
- The pause toggle turns the menu phase into playing as well, not only the
  paused phase.
- Confidences lie in `[0, 1)`, the range of `Math.random`, not in `[0, 1]`.
- The component starts with the camera flag on and target `Happy`.
- The list targets are drawn from (Happy, Sad, Angry, Surprised, Neutral,
  Fear, Disgust) is in a different order from the reading list (Happy, Fear,
  Disgust, Sad, Angry, Surprised, Neutral). Both orders are kept.

## Model

| member | source | states |
|---|---|---|
| Emotions.DrawIndex | game/src/EmotionalCharades.jsx:78-81 | `floor(r * 7)` for a draw `r` in [0, 1) is always a valid index into the seven-label list |
| Emotions.Draw | game/src/EmotionalCharades.jsx:78-81 | the label picked by draw `r` is the one at index `floor(r * 7)` of the draw list |
| Emotions.DrawSelects | game/src/EmotionalCharades.jsx:79-80 | draw `r` picks label `e` exactly when `r` lies in `[p/7, (p+1)/7)`, where `p` is `e`'s position in the draw list |
| Emotions.DrawIndexInterval | game/src/EmotionalCharades.jsx:80 | index `i` is chosen exactly when the draw lies in `[i/7, (i+1)/7)`, so each label gets one seventh of the unit interval |
| Emotions.EveryLabelDrawable | game/src/EmotionalCharades.jsx:79-80 | every label can be drawn by some draw in [0, 1) |
| Emotions.EmojiFor | game/src/EmotionalCharades.jsx:110-121 | the glyph is the dictionary entry for a known name and the neutral face for any other string; it is always one of the dictionary's glyphs |
| Emotions.GlyphsDistinguishLabels | game/src/EmotionalCharades.jsx:111-119 | every label's name is in the dictionary, and two labels get the same glyph only if they are the same label |
| Emotions.UnknownNameLooksNeutral | game/src/EmotionalCharades.jsx:120 | a string naming no label is shown with the Neutral glyph |
| Emotions.ConfidenceColor | game/src/EmotionalCharades.jsx:104-108 | gray exactly below 0.33, yellow exactly in [0.33, 0.66), green exactly from 0.66 on |
| Emotions.ConfidenceColorMonotone | game/src/EmotionalCharades.jsx:104-108 | a higher confidence never gets a lower colour band |
| Readings.Refresh | game/src/EmotionalCharades.jsx:87-90 | the refreshed list has the same length, each reading keeps its label, and the reading at position `i` takes draw `i` as confidence |
| Readings.Find | game/src/EmotionalCharades.jsx:94 | no result exactly when no reading has the label; otherwise the result is the confidence of the first reading with that label |
| Readings.RefreshPreservesLabels | game/src/EmotionalCharades.jsx:87-90 | a refresh keeps exactly the same labels in the same order |
| Readings.RefreshInUnit | game/src/EmotionalCharades.jsx:89 | after a refresh with `Math.random` draws every confidence is in [0, 1) |
| Readings.InitialLabels | game/src/EmotionalCharades.jsx:19-27 | the initial list carries the seven labels in reading order, each with confidence 0 |
| Readings.FindInReadingOrder | game/src/EmotionalCharades.jsx:94 | on a list with the seven labels in reading order, the lookup of any label succeeds and returns the confidence at that label's position |
| Readings.ReadingPositionUnique | game/src/EmotionalCharades.jsx:19-27 | each label occurs exactly once in the reading list, at its fixed position |
| Readings.FindAfterRefresh | game/src/EmotionalCharades.jsx:87-94 | after a refresh, the lookup of the target returns the draw at the target's position in the reading list |
| Game.Points | game/src/EmotionalCharades.jsx:96 | the points are `c * 100` rounded to the nearest integer (within one half); above 0.7 they are at least 70, below 1 at most 100 |
| Game.StartGame | game/src/EmotionalCharades.jsx:57-64 | start yields phase playing, camera on, score 0, round 1, 60 seconds, the target picked by the draw, and leaves the readings as they were |
| Game.PauseGame | game/src/EmotionalCharades.jsx:66-68 | playing becomes paused, every other phase (menu included) becomes playing, and nothing but the phase changes |
| Game.ResetGame | game/src/EmotionalCharades.jsx:70-76 | exit yields the menu, camera off, score 0, round 1, 60 seconds, and keeps target and readings |
| Game.CountdownTick | game/src/EmotionalCharades.jsx:32-41 | outside play nothing changes; in play with more than one second left only the clock moves, down by one; on the last second the phase becomes menu and the clock 60, nothing else changes |
| Game.DetectionTick | game/src/EmotionalCharades.jsx:84-99 | outside play nothing changes; in play every reading takes its draw, and when the target's new confidence is above 0.7 the score grows by its points, the round by one and a new target is drawn, otherwise score, round and target stay |
| Game.Step | game/src/EmotionalCharades.jsx:32-102 | either timer tick leaves a non-playing state unchanged, and no event changes the length of the reading list |
| Game.Run | game/src/EmotionalCharades.jsx:32-102 | a sequence of events applied in order never changes the length of the reading list |
| Game.Countdown | game/src/EmotionalCharades.jsx:34-41 | any number of one-second ticks leaves score, round, target, camera and readings unchanged, and changes nothing outside play |
| GameProperties.LabelListsAgree | game/src/EmotionalCharades.jsx:79 | every label occurs exactly once in the draw list and exactly once in the reading list |
| GameProperties.LabelListsPermute | game/src/EmotionalCharades.jsx:19-27 | the reading list is a permutation of the draw list |
| GameProperties.InitialIsValid | game/src/EmotionalCharades.jsx:8-29 | the initial state satisfies the invariant |
| GameProperties.TargetAlwaysFound | game/src/EmotionalCharades.jsx:94 | in every valid state the lookup of the target's reading succeeds |
| GameProperties.DetectionAward | game/src/EmotionalCharades.jsx:94-99 | with `c` the draw at the target's position: above 0.7, score grows by `Math.round(c*100)` (70..100), round by one, the target is redrawn; otherwise score, round and target stay; the round moves exactly when the score does |
| GameProperties.StepPreservesValid | game/src/EmotionalCharades.jsx:34-99 | every event keeps the invariant: clock within 1..60 and at 60 in the menu, seven labels in order, confidences in [0, 1), score within 70..100 points per round completed |
| GameProperties.RunPreservesValid | game/src/EmotionalCharades.jsx:34-99 | any sequence of events from a valid state ends in a valid state |
| GameProperties.ReachableIsValid | game/src/EmotionalCharades.jsx:8-29 | every state reachable from the initial state is valid |
| GameProperties.ClockChangesOnlyByTickOrReset | game/src/EmotionalCharades.jsx:34-41 | an event leaves the clock as it was, or is a countdown tick in play that lowers it by one, or sets it to 60 and is a start, an exit, or the countdown tick on the last second |
| GameProperties.TicksInertUnlessPlaying | game/src/EmotionalCharades.jsx:32-102 | outside play any run of countdown and detection ticks changes no part of the state |
| GameProperties.PauseResume | game/src/EmotionalCharades.jsx:66-68 | pausing and resuming restores the exact state; from the menu the double toggle ends paused instead |
| GameProperties.PausedTicksDoNotDrift | game/src/EmotionalCharades.jsx:66-68 | pause, any number of ticks, resume: the game state is exactly as before the pause |
| GameProperties.CountdownDecrements | game/src/EmotionalCharades.jsx:35-40 | while time remains, `k` countdown ticks take exactly `k` seconds off the clock and change nothing else |
| GameProperties.RunClockTicks | game/src/EmotionalCharades.jsx:34-41 | running `n` clock-tick events gives the same state as `n` countdown ticks |
| GameProperties.CountdownExpires | game/src/EmotionalCharades.jsx:36-39 | `timeLeft` ticks end the game: menu phase, clock 60, score, round, target, camera and readings kept |
| GameProperties.SessionScoreTracksRounds | game/src/EmotionalCharades.jsx:95-99 | without start or exit the round never decreases and the score gains between 70 and 100 points per round advanced |
| GameProperties.SessionScoreMonotone | game/src/EmotionalCharades.jsx:96 | without start or exit the score never decreases |
| GameProperties.ResetAbsorbs | game/src/EmotionalCharades.jsx:57-76 | start after exit equals start; exit is idempotent; exit erases any preceding pause toggle or countdown tick |
| GameProperties.ScenarioFirstAward | game/src/EmotionalCharades.jsx:94-98 | start with target Happy, a Happy confidence of 0.85: score 85, round 2, a new target drawn |
| GameProperties.ScenarioTimerExpiry | game/src/EmotionalCharades.jsx:34-41 | after start, a run of 60 clock-tick events returns to the menu with clock 60 and the score still 0 |
| GameProperties.ScenarioPauseNoDrift | game/src/EmotionalCharades.jsx:66-68 | start, pause, five countdown ticks, resume: the clock still reads 60 and the game is playing |

## Left out

- Rendering (game/src/EmotionalCharades.jsx:123-259) and the icons: presentation only.
- The camera effect (lines 47-55): an asynchronous `getUserMedia` request, a DOM reference and console logging, all I/O. Only the `cameraActive` flag it reacts to is modelled.
- React scheduling: `useEffect` dependency lists, `setInterval`/`clearInterval` lifetimes and batching of state updates. Each timer callback is one atomic event, and an event of `Run` may be any tick in any phase. Timer lifetimes themselves are not modelled; the ticks' phase guards make them inert outside play.
- `Math.random`: every draw is a parameter in [0, 1).
- Which buttons are on screen: `Run` accepts every event in every phase. The UI shows the start button only in the menu (lines 165-177), and the pause and exit buttons only outside it (lines 239-253). The invariant is proved for the larger set of event sequences, so it also holds for the ones the UI can produce.
- Confidences are Dafny `real`, not IEEE-754 doubles. `Math.round(x)` is `Floor(x + 0.5)`, which is exact for reals. Rounding error in `c * 100` is not modelled.
- The settings state (`showSettings`, `soundEnabled`, `difficulty`, lines 12-14 and 138-163): stored and toggled by the settings panel, but never read by any game logic.
- Emotions.EmojiFor: covers only string keys. A JavaScript property lookup on an inherited name such as `constructor` would return a non-glyph value, and that is not modelled.
