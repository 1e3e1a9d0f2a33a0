# Rock-Paper-Scissors round engine, in Dafny

This project models the game engine of a camera-driven Rock-Paper-Scissors
game. A player shows a hand gesture to the camera. A three-second countdown
leads into a "play now" phase. In that phase, the gesture of the last
detected hand is played against a randomly drawn computer move, in the
first frame in which that gesture is recognised. The model covers three parts,
all from `RockPaperScissors/play.py`:

- `resolver.dfy`, module `Resolver`: `calculate_game_state`. The random draw
  is a parameter `selected` in 0..2. A player move of `UNKNOWN` makes the
  source raise a `KeyError` at `wins[move]`; the model returns `None` for it.
- `gesture.dfy`, module `Gesture`: `get_finger_status`, `get_thumb_status`,
  the five-character `current_state` pattern, the exact-match lookup and
  the loop over detected hands. A hand is a sequence of at least 21
  landmarks with real coordinates.
- `round.dfy`, module `Round`: the per-frame logic of `start_video`.
  `RoundState` and the functions `Countdown`, `Settle`, `Start`, `Label`,
  `Step` and `Run` specify one pass of the loop and a sequence of passes.
  Class `Game` holds the loop's variables as fields. Its methods
  (`AdvanceCountdown`, `Resolve`, `PressStart`, `Tick`) update them in
  place, and each is proved to match the specification function.

Each tick takes four inputs: the clock reading `now`, the detected hands,
the random index, and whether the space key was pressed.

The model follows the code as written:

- The round's phase is not one value: the code keeps two flags,
  `timer_started` and `hold_for_play`. A start press does not clear
  `hold_for_play`, so both flags can be set at once. In that state the
  label reads "PLAY NOW!".
- The countdown ends when the value is `<= 0`, and it steps at most once per
  frame.
- A hand with fewer than 21 landmarks is not handled by the code: it would
  index out of range. The `Hand` type requires 21 or more landmarks.
- The code compares each fingertip with landmark tip−2. In the detector's
  numbering that is the PIP joint, not the knuckle (MCP), whatever the
  code's variable name says.
- Landmarks are drawn on a hand only while one is present, and the window
  is `now - draw_timer <= 2`, inclusive.

## Model

| member | source | states |
|---|---|---|
| Resolver.CalculateGameState | RockPaperScissors/play.py:6-18 | An `UNKNOWN` player move (a missing `wins` key) is the error case, and only that move is. Otherwise the computer move is `moves[selected]` and never Unknown, and the result is 0 iff the moves are equal. It is 1 iff the player's move beats the computer's, and -1 iff the computer's beats the player's, under an independent definition of "beats". |
| Resolver.WinsTableIsBeats | RockPaperScissors/play.py:8 | The `wins` table maps a move to exactly the move it beats: Rock beats Scissors, Paper beats Rock, Scissors beats Paper. |
| Resolver.ResultAntisymmetric | RockPaperScissors/play.py:12-18 | Over all 9 pairs, swapping the player's and the computer's moves negates the result. |
| Resolver.EachOutcomeOnce | RockPaperScissors/play.py:7-18 | For each real player move, the three possible draws give three different results, so win, lose and draw each come from exactly one draw. |
| Gesture.FingerStatusReadsTipAndBase | RockPaperScissors/play.py:21-28 | A finger's status depends only on the y of its tip (8/12/16/20) and of landmark tip−2. |
| Gesture.FingerStatusIgnoresDip | RockPaperScissors/play.py:24-28 | Changing landmark tip−1 (read as `finger_dip_y`) never changes a finger's status. |
| Gesture.FingerTieIsCurled | RockPaperScissors/play.py:28 | The comparison is strict: a tip level with landmark tip−2 counts as curled. |
| Gesture.ThumbStatusReadsX | RockPaperScissors/play.py:31-36 | The thumb's status depends only on the x of landmarks THUMB_TIP, THUMB_TIP−1 and THUMB_TIP−2. |
| Gesture.ThumbTieIsCurled | RockPaperScissors/play.py:36 | The chained comparison is strict: any tie between tip and IP, or between IP and MCP, gives false. |
| Gesture.UnpackPattern | RockPaperScissors/play.py:82-96 | The five-character pattern (thumb, index, middle, ring, pinky) loses no information: reading it back gives the five finger states. |
| Gesture.ClassifyExact | RockPaperScissors/play.py:98-105 | Classification is an exact lookup: pattern 00000 is Rock, 11111 is Paper, 01100 is Scissors, each iff the finger states are exactly that. The other 29 patterns give Unknown. |
| Gesture.HandMoveExact | RockPaperScissors/play.py:82-105 | A hand shows Rock, Paper or Scissors iff its thumb and finger statuses are all false, all true, or only index and middle true. |
| Gesture.CurrentState | RockPaperScissors/play.py:82-96 | The digit-by-digit string appends build exactly the pattern of the hand's five statuses, thumb first. |
| Gesture.ClassifyHands | RockPaperScissors/play.py:76-105 | Every hand overwrites `move`: the result is the classification of the last hand, and with no hand it stays Unknown. |
| Round.InitialValid | RockPaperScissors/play.py:45-57 | The initial values satisfy the loop invariant, show the "PRESS SPACE TO START!" label and show the (empty) outcome line. |
| Round.StepPreservesValid | RockPaperScissors/play.py:61-166 | Every pass of the loop keeps the invariant. The countdown stays in 0..3, so it never goes below 0, and it is at least 1 while running. The outcome text and colour stay one of the pairs the code sets. |
| Round.SettleKeepsOutcomeConsistent | RockPaperScissors/play.py:107-121 | A resolution keeps the invariant, and it sets the text and colour to one matching pair: won/green, lost/red or draw/yellow. |
| Round.CountdownTick | RockPaperScissors/play.py:63-71 | When the timer runs and at least 1 has elapsed, the value drops by exactly 1, `start_time` becomes now, and reaching <= 0 sets hold and stops the timer. Otherwise nothing changes. The outcome fields are never touched. |
| Round.CountdownProgress | RockPaperScissors/play.py:63-71 | A running countdown at n, after k <= n due ticks, is at n − k. It is still running iff k < n, holding starts exactly at k = n, and `start_time` is the last tick's time. |
| Round.StartThenThreeTicks | RockPaperScissors/play.py:63-71 | After a start press, two due ticks still leave the timer running, and the third reaches hold with the value at 0. |
| Round.StepTimerIsCountdown | RockPaperScissors/play.py:63-121 | A pass without a start press changes `start_time`, `timer_started` and `time_left_now` exactly as the countdown block does; classification and resolution never touch them. |
| Round.RunTimerIsCountdowns | RockPaperScissors/play.py:61-166 | Over any run of passes without a start press, whatever hands are shown, the three timer variables follow the countdown block alone. |
| Round.RunIsCountdowns | RockPaperScissors/play.py:61-166 | A run of passes with no start press and no recognised hand is, on every variable, the countdown block applied at each pass's time. |
| Round.StartThenThreePasses | RockPaperScissors/play.py:61-166 | After a start press, three full passes a second apart without another press end the countdown at 0 with the timer stopped. With no recognised hand along the way, the game is then holding. |
| Round.StartRearms | RockPaperScissors/play.py:162-166 | A space press in any state sets `timer_started`, `time_left_now = 3` and `start_time = now`. It leaves `hold_for_play`, `draw_timer` and the outcome text and colour as the rest of the pass left them. |
| Round.StartWhileHolding | RockPaperScissors/play.py:145-166 | A start while holding leaves both flags set, and the label then reads "PLAY NOW!". |
| Round.CountdownLabel | RockPaperScissors/play.py:145-149 | While counting down and not holding, the label is "PLAY STARTS IN " followed by the digit of `time_left_now` itself (1, 2 or 3), and the digits after the prefix spell exactly `time_left_now`. |
| Round.NatString | RockPaperScissors/play.py:149 | `str` of a count is a non-empty string of decimal digits, and it has no leading zero unless it is the single digit 0. |
| Round.NatStringRoundTrip | RockPaperScissors/play.py:149 | The digits `str` writes for a count spell that count back. |
| Round.NatStringUnique | RockPaperScissors/play.py:149 | Any digit string without a leading zero that spells a count is exactly what `str` writes for it, so `str` gives the number's one decimal form. |
| Round.StepResolution | RockPaperScissors/play.py:107-121 | A pass resolves iff it is holding after the countdown and the last hand's move is known. Such a pass has a hand, a non-Unknown player move, clears hold, sets `draw_timer = now`, names both moves, and sets the text and colour for the result. Any other pass leaves the outcome text, colour, `computer_played` and `draw_timer` unchanged. |
| Round.OutcomePersists | RockPaperScissors/play.py:107-166 | Over any run of passes without a resolution, the outcome text, `computer_played`, colour and draw timer persist. Start presses, countdowns and holding do not clear them. |
| Round.ScissorsLosesToRock | RockPaperScissors/play.py:107-143 | While holding, a last hand showing Scissors against a draw of Rock gives "You've lost!" in the losing colour. |
| Round.ResolveInSameTickAsHold | RockPaperScissors/play.py:63-121 | A pass whose countdown reaches 0 can resolve in the same pass when a known move is shown. |
| Round.LandmarkWindow | RockPaperScissors/play.py:77-143 | In every phase, landmarks are drawn iff a hand is present and either the game is holding after this pass's countdown or now − `draw_timer` <= 2. Outside countdown and hold, the outcome line is shown. |
| Round.Game.constructor | RockPaperScissors/play.py:45-57 | The fields start at the loop's initial values, which satisfy the invariant. |
| Round.Game.AdvanceCountdown | RockPaperScissors/play.py:63-71 | The in-place countdown block gives exactly the `Countdown` state. |
| Round.Game.Resolve | RockPaperScissors/play.py:107-121 | The in-place resolution block gives exactly the `Settle` state. |
| Round.Game.PressStart | RockPaperScissors/play.py:162-166 | The in-place space-key block gives exactly the `Start` state. |
| Round.Game.Tick | RockPaperScissors/play.py:61-166 | One pass of the loop updates the fields and returns the frame exactly as `Step` specifies, and it keeps the invariant. |

## Left out

- Video capture, colour conversion, window display and teardown (`VideoCapture`, `cvtColor`, `imshow`, `destroyAllWindows`, `release`): these are I/O.
- Key polling: `waitKey` is called twice per frame, once for space and once for escape. The model takes "space pressed" as one boolean per tick. The escape key that ends the loop is not modelled.
- Hand detection and landmark drawing: detection is a foreign model, so landmarks are an input sequence. Drawing is reduced to the boolean `landmarksDrawn` of a frame.
- Text rendering and the semi-transparent rectangle (`putText`, `rectangle`, `addWeighted`): these are floating-point image work. The frame keeps the label, the outcome line and its colour.
- `random.randint`: it becomes the `selected` index of a tick. It is used only when the tick resolves a round.
- `time.time()`: the code reads it up to four times per frame. The model uses one `now` per tick for all of them.
- `print` logging.

