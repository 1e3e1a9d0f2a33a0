/**
 * The per-frame round logic of `start_video` in RockPaperScissors/play.py:
 * the countdown, resolution of a round against the computer, the label and
 * outcome line shown on screen, and the space-key start. The clock, the
 * detected hands, the random draw and the key press are inputs of a tick.
 *
 * RoundState and the functions over it are the specification; class Game
 * holds the loop's local variables as fields and updates them in place,
 * one method per block of the loop body.
 */
module Round {
  import opened Resolver
  import opened Gesture

  /** An OpenCV colour, in blue-green-red order. */
  datatype Colour = Colour(blue: int, green: int, red: int)

  const WinColour := Colour(0, 255, 0)
  const LoseColour := Colour(0, 0, 255)
  const DrawColour := Colour(255, 255, 0)
  const DefaultColour := Colour(255, 255, 255)

  const WonText := "You've won!"
  const LostText := "You've lost!"
  const DrawText := "It's a draw!"

  const PressLabel := "PRESS SPACE TO START!"
  const PlayNowLabel := "PLAY NOW!"
  const StartsInLabel := "PLAY STARTS IN "

  /** The countdown's starting value, set by a start press. */
  const CountdownFrom := 3

  /** The local variables that start_video carries from one frame to the next. */
  datatype RoundState = RoundState(
    startTime: real,
    timerStarted: bool,
    timeLeftNow: int,
    holdForPlay: bool,
    drawTimer: real,
    gameOverText: string,
    computerPlayed: string,
    colour: Colour)

  /** The values start_video gives them before its loop. */
  const Initial := RoundState(0.0, false, CountdownFrom, false, 0.0, "", "", DefaultColour)

  /** The text and colour shown for result `won` of calculate_game_state. */
  function Verdict(won: int): (string, Colour) {
    if won == 1 then (WonText, WinColour)
    else if won == -1 then (LostText, LoseColour)
    else (DrawText, DrawColour)
  }

  /** The outcome line and its colour are one of the four pairs the program sets. */
  predicate OutcomeConsistent(s: RoundState) {
    (s.gameOverText == "" && s.computerPlayed == "" && s.colour == DefaultColour)
    || (s.gameOverText == WonText && s.colour == WinColour)
    || (s.gameOverText == LostText && s.colour == LoseColour)
    || (s.gameOverText == DrawText && s.colour == DrawColour)
  }

  /**
   * The invariant of the loop: the countdown value stays in 0..3 and is
   * positive while the timer runs.
   */
  predicate Valid(s: RoundState) {
    0 <= s.timeLeftNow <= CountdownFrom
    && (s.timerStarted ==> 1 <= s.timeLeftNow)
    && OutcomeConsistent(s)
  }

  /** A tick advances the countdown when the timer runs and a second has passed. */
  predicate Due(s: RoundState, now: real) {
    s.timerStarted && now - s.startTime >= 1.0
  }

  /** The countdown block at the head of the loop. */
  function Countdown(s: RoundState, now: real): RoundState {
    if Due(s, now) then
      var left := s.timeLeftNow - 1;
      if left <= 0 then
        s.(timeLeftNow := left, startTime := now, holdForPlay := true, timerStarted := false)
      else
        s.(timeLeftNow := left, startTime := now)
    else
      s
  }

  /** The `computer_played` line naming both moves. */
  function PlayedText(player: Move, computer: Move): string {
    "You: " + Name(player) + " | Computer: " + Name(computer)
  }

  /** The resolution block: only while holding and for a recognised move. */
  function Settle(s: RoundState, move: Move, now: real, selected: MoveIndex): RoundState {
    if s.holdForPlay && move != Unknown then
      var game := CalculateGameState(move, selected).value;
      var (text, colour) := Verdict(game.won);
      s.(holdForPlay := false, drawTimer := now,
         computerPlayed := PlayedText(move, game.computer),
         gameOverText := text, colour := colour)
    else
      s
  }

  /** The space key: re-arms the countdown and touches nothing else. */
  function Start(s: RoundState, now: real): RoundState {
    s.(startTime := now, timerStarted := true, timeLeftNow := CountdownFrom)
  }

  /** The digits of a natural number, as Python's `str` writes it. */
  function NatString(n: nat): (r: string)
    ensures |r| >= 1 && forall k :: 0 <= k < |r| ==> '0' <= r[k] <= '9'
    ensures |r| == 1 || r[0] != '0'
  {
    var last := "0123456789"[n % 10];
    if n < 10 then [last] else NatString(n / 10) + [last]
  }

  /** The number a string of decimal digits spells. */
  function DigitsValue(r: string): (v: int)
    requires forall k :: 0 <= k < |r| ==> '0' <= r[k] <= '9'
    ensures v >= 0
  {
    if |r| == 0 then 0
    else DigitsValue(r[..|r| - 1]) * 10 + (r[|r| - 1] as int - '0' as int)
  }

  /** `str` of a natural number spells that number back. */
  lemma {:induction false} NatStringRoundTrip(n: nat)
    ensures DigitsValue(NatString(n)) == n
    decreases n
  {
    var r := NatString(n);
    var d := n % 10;
    assert "0123456789"[d] as int - '0' as int == d;
    if n >= 10 {
      assert r[..|r| - 1] == NatString(n / 10);
      NatStringRoundTrip(n / 10);
    }
  }

  /** A digit string without a leading zero spells a positive number. */
  lemma {:induction false} LeadingDigitPositive(r: string)
    requires |r| >= 1 && r[0] != '0' && forall k :: 0 <= k < |r| ==> '0' <= r[k] <= '9'
    ensures DigitsValue(r) >= 1
    decreases |r|
  {
    if |r| > 1 {
      LeadingDigitPositive(r[..|r| - 1]);
    }
  }

  /**
   * `str` writes the only decimal form of a number: any digit string
   * without a leading zero that spells n is NatString(n).
   */
  lemma {:induction false} NatStringUnique(n: nat, r: string)
    requires |r| >= 1 && forall k :: 0 <= k < |r| ==> '0' <= r[k] <= '9'
    requires |r| == 1 || r[0] != '0'
    requires DigitsValue(r) == n
    ensures r == NatString(n)
    decreases |r|
  {
    var d := r[|r| - 1] as int - '0' as int;
    assert "0123456789"[d] == r[|r| - 1];
    if |r| > 1 {
      var p := r[..|r| - 1];
      LeadingDigitPositive(p);
      assert n % 10 == d && n / 10 == DigitsValue(p);
      NatStringUnique(n / 10, p);
      assert r == p + [r[|r| - 1]];
    }
  }

  /** Python's `str` of an integer. */
  function DecimalString(n: int): string {
    if n < 0 then "-" + NatString(-n) else NatString(n)
  }

  /** The label at the top of the frame; holding is tested first. */
  function Label(s: RoundState): string {
    if s.holdForPlay then PlayNowLabel
    else if s.timerStarted then StartsInLabel + DecimalString(s.timeLeftNow)
    else PressLabel
  }

  /** The outcome line is drawn only while neither holding nor counting down. */
  predicate OutcomeShown(s: RoundState) {
    !s.holdForPlay && !s.timerStarted
  }

  /** Landmarks are drawn on each hand while holding or within 2 after resolution. */
  predicate LandmarksDrawn(s: RoundState, now: real, hands: seq<Hand>) {
    |hands| > 0 && (s.holdForPlay || now - s.drawTimer <= 2.0)
  }

  /** What the frame shows, for the display. */
  datatype Frame = Frame(labelText: string, outcome: Option<string>, outcomeColour: Colour, landmarksDrawn: bool)

  function FrameOf(s: RoundState, drawn: bool): Frame {
    Frame(Label(s),
          if OutcomeShown(s) then Some(s.gameOverText + " " + s.computerPlayed) else None,
          s.colour, drawn)
  }

  /** The inputs of one pass of the loop. */
  datatype Input = Input(now: real, hands: seq<Hand>, selected: MoveIndex, spacePressed: bool)

  /**
   * One pass of the loop, in its order: countdown; classification and,
   * when a hand is present, resolution; the frame; the space key.
   */
  function Step(s: RoundState, i: Input): (RoundState, Frame) {
    var counted := Countdown(s, i.now);
    var drawn := LandmarksDrawn(counted, i.now, i.hands);
    var settled := if |i.hands| > 0 then Settle(counted, LastHandMove(i.hands), i.now, i.selected) else counted;
    var frame := FrameOf(settled, drawn);
    (if i.spacePressed then Start(settled, i.now) else settled, frame)
  }

  /** The state after a sequence of loop passes. */
  function Run(s: RoundState, inputs: seq<Input>): RoundState
    decreases |inputs|
  {
    if |inputs| == 0 then s else Run(Step(s, inputs[0]).0, inputs[1..])
  }

  /** The pass resolves a round: holding after the countdown, and a recognised last hand. */
  predicate Resolves(s: RoundState, i: Input) {
    Countdown(s, i.now).holdForPlay && LastHandMove(i.hands) != Unknown
  }

  /** Every pass keeps the loop invariant; in particular the countdown never goes below 0. */
  lemma StepPreservesValid(s: RoundState, i: Input)
    requires Valid(s)
    ensures Valid(Step(s, i).0)
  {
    var counted := Countdown(s, i.now);
    assert Valid(counted);
    var settled := if |i.hands| > 0 then Settle(counted, LastHandMove(i.hands), i.now, i.selected) else counted;
    if |i.hands| > 0 {
      SettleKeepsOutcomeConsistent(counted, LastHandMove(i.hands), i.now, i.selected);
    }
    assert Valid(settled);
  }

  /** A resolution sets one of the three text and colour pairs. */
  lemma SettleKeepsOutcomeConsistent(s: RoundState, move: Move, now: real, selected: MoveIndex)
    requires Valid(s)
    ensures Valid(Settle(s, move, now, selected))
    ensures s.holdForPlay && move != Unknown ==>
      (Settle(s, move, now, selected).gameOverText, Settle(s, move, now, selected).colour)
        in {(WonText, WinColour), (LostText, LoseColour), (DrawText, DrawColour)}
  {
    if s.holdForPlay && move != Unknown {
      var won := CalculateGameState(move, selected).value.won;
      assert Verdict(won) in {(WonText, WinColour), (LostText, LoseColour), (DrawText, DrawColour)};
    }
  }

  lemma InitialValid()
    ensures Valid(Initial) && Label(Initial) == PressLabel && OutcomeShown(Initial)
  {
  }

  /**
   * The countdown, one tick: when due, the value drops by exactly one and
   * the reference time moves to now, and reaching 0 ends the timer and
   * starts holding; otherwise nothing changes.
   */
  lemma CountdownTick(s: RoundState, now: real)
    ensures !Due(s, now) ==> Countdown(s, now) == s
    ensures Due(s, now) ==>
      var c := Countdown(s, now);
      c.timeLeftNow == s.timeLeftNow - 1 && c.startTime == now
      && c.drawTimer == s.drawTimer && c.gameOverText == s.gameOverText
      && c.computerPlayed == s.computerPlayed && c.colour == s.colour
      && (c.timeLeftNow <= 0 ==> c.holdForPlay && !c.timerStarted)
      && (c.timeLeftNow > 0 ==> c.holdForPlay == s.holdForPlay && c.timerStarted)
  {
  }

  /** The countdown alone, applied at each of the given times. */
  function Countdowns(s: RoundState, times: seq<real>): RoundState
    decreases |times|
  {
    if |times| == 0 then s else Countdowns(Countdown(s, times[0]), times[1..])
  }

  /** Each time is at least one unit after the previous one (the first after `from`). */
  predicate Spaced(from: real, times: seq<real>) {
    (|times| > 0 ==> times[0] - from >= 1.0)
    && forall k :: 0 < k < |times| ==> times[k] - times[k - 1] >= 1.0
  }

  /**
   * A running countdown at n, ticked at k <= n times a second apart, is at
   * n - k; it is still running iff k < n, and holding begins at k == n.
   */
  lemma {:induction false} CountdownProgress(s: RoundState, times: seq<real>)
    requires s.timerStarted && 1 <= s.timeLeftNow && |times| <= s.timeLeftNow
    requires Spaced(s.startTime, times)
    ensures Countdowns(s, times).timeLeftNow == s.timeLeftNow - |times|
    ensures Countdowns(s, times).timerStarted <==> |times| < s.timeLeftNow
    ensures Countdowns(s, times).holdForPlay <==> s.holdForPlay || |times| == s.timeLeftNow
    ensures |times| > 0 ==> Countdowns(s, times).startTime == times[|times| - 1]
    decreases |times|
  {
    if |times| > 0 {
      var c := Countdown(s, times[0]);
      assert Due(s, times[0]);
      if |times| > 1 {
        assert c.timerStarted;
        assert times[1] - times[0] >= 1.0;
        forall k | 0 < k < |times[1..]|
          ensures times[1..][k] - times[1..][k - 1] >= 1.0
        {
          assert times[1..][k] == times[k + 1];
        }
        CountdownProgress(c, times[1..]);
        assert times[1..][|times[1..]| - 1] == times[|times| - 1];
      }
    }
  }

  /** From a start press, exactly three ticks a second apart reach holding. */
  lemma StartThenThreeTicks(s: RoundState, t0: real, t1: real, t2: real, t3: real)
    requires t1 - t0 >= 1.0 && t2 - t1 >= 1.0 && t3 - t2 >= 1.0
    ensures !Countdowns(Start(s, t0), [t1, t2]).holdForPlay <==> !s.holdForPlay
    ensures Countdowns(Start(s, t0), [t1, t2]).timerStarted
    ensures Countdowns(Start(s, t0), [t1, t2, t3]).holdForPlay
    ensures !Countdowns(Start(s, t0), [t1, t2, t3]).timerStarted
    ensures Countdowns(Start(s, t0), [t1, t2, t3]).timeLeftNow == 0
  {
    CountdownProgress(Start(s, t0), [t1, t2]);
    CountdownProgress(Start(s, t0), [t1, t2, t3]);
  }

  /** Two states agree on the three variables the countdown reads and writes. */
  predicate SameTimer(a: RoundState, b: RoundState) {
    a.startTime == b.startTime && a.timerStarted == b.timerStarted && a.timeLeftNow == b.timeLeftNow
  }

  /**
   * A pass without a start press moves the timer exactly as the countdown
   * block does; classification and resolution never touch it.
   */
  lemma StepTimerIsCountdown(s: RoundState, i: Input)
    requires !i.spacePressed
    ensures SameTimer(Step(s, i).0, Countdown(s, i.now))
  {
  }

  /** The clock readings of a run of passes. */
  function Times(inputs: seq<Input>): seq<real> {
    seq(|inputs|, k requires 0 <= k < |inputs| => inputs[k].now)
  }

  /** No pass of the run has a start press. */
  predicate NoPress(inputs: seq<Input>) {
    forall k :: 0 <= k < |inputs| ==> !inputs[k].spacePressed
  }

  /**
   * Over a run of passes without a start press, the timer variables follow
   * the countdown block alone, whatever hands are shown.
   */
  lemma {:induction false} RunTimerIsCountdowns(s: RoundState, c: RoundState, inputs: seq<Input>)
    requires SameTimer(s, c) && NoPress(inputs)
    ensures SameTimer(Run(s, inputs), Countdowns(c, Times(inputs)))
    decreases |inputs|
  {
    if |inputs| > 0 {
      StepTimerIsCountdown(s, inputs[0]);
      assert SameTimer(Countdown(s, inputs[0].now), Countdown(c, inputs[0].now));
      assert Times(inputs)[1..] == Times(inputs[1..]);
      assert Times(inputs)[0] == inputs[0].now;
      RunTimerIsCountdowns(Step(s, inputs[0]).0, Countdown(c, inputs[0].now), inputs[1..]);
    }
  }

  /** No pass of the run shows a recognised last hand. */
  predicate NoPlay(inputs: seq<Input>) {
    forall k :: 0 <= k < |inputs| ==> LastHandMove(inputs[k].hands) == Unknown
  }

  /**
   * Without a start press or a recognised hand, a run of passes is the
   * countdown block alone, on every variable.
   */
  lemma {:induction false} RunIsCountdowns(s: RoundState, inputs: seq<Input>)
    requires NoPress(inputs) && NoPlay(inputs)
    ensures Run(s, inputs) == Countdowns(s, Times(inputs))
    decreases |inputs|
  {
    if |inputs| > 0 {
      assert !inputs[0].spacePressed && LastHandMove(inputs[0].hands) == Unknown;
      assert Step(s, inputs[0]).0 == Countdown(s, inputs[0].now);
      assert Times(inputs)[1..] == Times(inputs[1..]);
      assert Times(inputs)[0] == inputs[0].now;
      assert NoPress(inputs[1..]) && NoPlay(inputs[1..]) by {
        forall k | 0 <= k < |inputs[1..]|
          ensures !inputs[1..][k].spacePressed && LastHandMove(inputs[1..][k].hands) == Unknown
        {
          assert inputs[1..][k] == inputs[k + 1];
        }
      }
      RunIsCountdowns(Step(s, inputs[0]).0, inputs[1..]);
    }
  }

  /**
   * From a start press, three passes a second apart without another press
   * end the countdown at 0 whatever hands are shown; with no recognised
   * hand along the way they leave the game holding.
   */
  lemma StartThenThreePasses(s: RoundState, t0: real, inputs: seq<Input>)
    requires |inputs| == 3 && NoPress(inputs) && Spaced(t0, Times(inputs))
    ensures !Run(Start(s, t0), inputs).timerStarted && Run(Start(s, t0), inputs).timeLeftNow == 0
    ensures NoPlay(inputs) ==> Run(Start(s, t0), inputs).holdForPlay
  {
    RunTimerIsCountdowns(Start(s, t0), Start(s, t0), inputs);
    CountdownProgress(Start(s, t0), Times(inputs));
    if NoPlay(inputs) {
      RunIsCountdowns(Start(s, t0), inputs);
    }
  }

  /**
   * A start press from any state: the countdown is re-armed at 3 from now,
   * and the hold flag, the draw timer and the outcome line are untouched.
   */
  lemma StartRearms(s: RoundState, i: Input)
    requires i.spacePressed
    ensures var (next, _) := Step(s, i);
      var (before, _) := Step(s, i.(spacePressed := false));
      next.timerStarted && next.timeLeftNow == CountdownFrom && next.startTime == i.now
      && next.holdForPlay == before.holdForPlay && next.drawTimer == before.drawTimer
      && next.gameOverText == before.gameOverText && next.computerPlayed == before.computerPlayed
      && next.colour == before.colour
  {
  }

  /**
   * Pressing start while holding does not clear the hold: both flags are
   * set, and the label says "PLAY NOW!".
   */
  lemma StartWhileHolding(s: RoundState, now: real)
    requires s.holdForPlay
    ensures Start(s, now).holdForPlay && Start(s, now).timerStarted
    ensures Label(Start(s, now)) == PlayNowLabel
  {
  }

  /**
   * Resolution. When the pass resolves, the hold ends, the draw timer is
   * now and the outcome line is that of calculate_game_state for the last
   * hand's move (never Unknown); otherwise the outcome line, its colour and
   * the draw timer stay as they were.
   */
  lemma StepResolution(s: RoundState, i: Input)
    ensures var (next, _) := Step(s, i.(spacePressed := false));
      if Resolves(s, i) then
        var move := LastHandMove(i.hands);
        var game := CalculateGameState(move, i.selected);
        move != Unknown && |i.hands| > 0 && game.Some?
        && !next.holdForPlay && next.drawTimer == i.now
        && next.computerPlayed == PlayedText(move, Moves[i.selected])
        && (next.gameOverText, next.colour) == Verdict(game.value.won)
      else
        next.holdForPlay == Countdown(s, i.now).holdForPlay
        && next.drawTimer == s.drawTimer && next.gameOverText == s.gameOverText
        && next.computerPlayed == s.computerPlayed && next.colour == s.colour
  {
  }

  /** No pass along the run resolves a round. */
  predicate NoResolution(s: RoundState, inputs: seq<Input>)
    decreases |inputs|
  {
    |inputs| == 0 || (!Resolves(s, inputs[0]) && NoResolution(Step(s, inputs[0]).0, inputs[1..]))
  }

  /**
   * The outcome line and the draw timer persist through any run without a
   * resolution: start presses, countdowns and holding do not clear them.
   */
  lemma {:induction false} OutcomePersists(s: RoundState, inputs: seq<Input>)
    requires NoResolution(s, inputs)
    ensures Run(s, inputs).gameOverText == s.gameOverText
    ensures Run(s, inputs).computerPlayed == s.computerPlayed
    ensures Run(s, inputs).colour == s.colour
    ensures Run(s, inputs).drawTimer == s.drawTimer
    decreases |inputs|
  {
    if |inputs| > 0 {
      StepResolution(s, inputs[0]);
      OutcomePersists(Step(s, inputs[0]).0, inputs[1..]);
    }
  }

  /**
   * While holding, a hand showing Scissors against a computer draw of Rock
   * loses, and the frame shows the losing text in the losing colour.
   */
  lemma ScissorsLosesToRock(s: RoundState, now: real, hands: seq<Hand>)
    requires s.holdForPlay && |hands| > 0 && HandMove(hands[|hands| - 1]) == Scissors
    ensures var (next, frame) := Step(s, Input(now, hands, 0, false));
      next.gameOverText == LostText && next.colour == LoseColour
      && next.computerPlayed == PlayedText(Scissors, Rock)
      && (!next.timerStarted ==> frame.outcome == Some(LostText + " " + PlayedText(Scissors, Rock)))
      && frame.outcomeColour == LoseColour
  {
    assert Countdown(s, now).holdForPlay;
  }

  /** A pass whose countdown reaches 0 can resolve at once, in the same pass. */
  lemma ResolveInSameTickAsHold(s: RoundState, i: Input)
    requires s.timerStarted && s.timeLeftNow == 1 && i.now - s.startTime >= 1.0
    requires LastHandMove(i.hands) != Unknown
    ensures Resolves(s, i)
    ensures !Step(s, i.(spacePressed := false)).0.holdForPlay
  {
  }

  /**
   * Landmarks are drawn on a present hand while holding (after this pass's
   * countdown) and for 2 time units after the last resolution, in any
   * phase. Outside countdown and hold the outcome line stays shown.
   */
  lemma LandmarkWindow(s: RoundState, i: Input)
    ensures Step(s, i).1.landmarksDrawn <==>
      |i.hands| > 0 && (Countdown(s, i.now).holdForPlay || i.now - s.drawTimer <= 2.0)
    ensures !s.timerStarted && !s.holdForPlay ==>
      Step(s, i).1.outcome == Some(s.gameOverText + " " + s.computerPlayed)
  {
  }

  /** While the countdown runs the label names the seconds left, 1 to 3. */
  lemma CountdownLabel(s: RoundState)
    requires Valid(s) && s.timerStarted && !s.holdForPlay
    ensures Label(s) in {StartsInLabel + "1", StartsInLabel + "2", StartsInLabel + "3"}
    ensures Label(s) == StartsInLabel + ["0123"[s.timeLeftNow]]
    ensures DigitsValue(Label(s)[|StartsInLabel|..]) == s.timeLeftNow
  {
    NatStringRoundTrip(s.timeLeftNow);
    assert Label(s)[|StartsInLabel|..] == NatString(s.timeLeftNow);
  }

  /**
   * The state start_video keeps across frames, updated in place. Each
   * method is one block of the loop body.
   */
  class Game {
    var startTime: real
    var timerStarted: bool
    var timeLeftNow: int
    var holdForPlay: bool
    var drawTimer: real
    var gameOverText: string
    var computerPlayed: string
    var gameOverColour: Colour

    function State(): RoundState
      reads this
    {
      RoundState(startTime, timerStarted, timeLeftNow, holdForPlay, drawTimer,
                 gameOverText, computerPlayed, gameOverColour)
    }

    constructor ()
      ensures State() == Initial && Valid(State())
    {
      startTime := 0.0;
      timerStarted := false;
      timeLeftNow := CountdownFrom;
      holdForPlay := false;
      drawTimer := 0.0;
      gameOverText := "";
      computerPlayed := "";
      gameOverColour := DefaultColour;
    }

    /** The countdown block. */
    method AdvanceCountdown(now: real)
      modifies this
      ensures State() == Countdown(old(State()), now)
    {
      if timerStarted {
        var elapsed := now - startTime;
        if elapsed >= 1.0 {
          timeLeftNow := timeLeftNow - 1;
          startTime := now;
          if timeLeftNow <= 0 {
            holdForPlay := true;
            timerStarted := false;
          }
        }
      }
    }

    /** The resolution block, entered only when a hand was detected. */
    method Resolve(move: Move, now: real, selected: MoveIndex)
      modifies this
      ensures State() == Settle(old(State()), move, now, selected)
    {
      if holdForPlay && move != Unknown {
        holdForPlay := false;
        drawTimer := now;
        var game := CalculateGameState(move, selected).value;
        computerPlayed := PlayedText(move, game.computer);
        if game.won == 1 {
          gameOverText := WonText;
          gameOverColour := WinColour;
        } else if game.won == -1 {
          gameOverText := LostText;
          gameOverColour := LoseColour;
        } else {
          gameOverText := DrawText;
          gameOverColour := DrawColour;
        }
      }
    }

    /** The space key. */
    method PressStart(now: real)
      modifies this
      ensures State() == Start(old(State()), now)
    {
      startTime := now;
      timerStarted := true;
      timeLeftNow := CountdownFrom;
    }

    /** One pass of the loop; the frame is what it hands to the display. */
    method Tick(i: Input) returns (frame: Frame)
      requires Valid(State())
      modifies this
      ensures (State(), frame) == Step(old(State()), i)
      ensures Valid(State())
    {
      ghost var before := State();
      StepPreservesValid(before, i);
      AdvanceCountdown(i.now);
      ghost var counted := State();
      var drawn := |i.hands| > 0 && (holdForPlay || i.now - drawTimer <= 2.0);
      assert drawn == LandmarksDrawn(counted, i.now, i.hands);
      var move := ClassifyHands(i.hands);
      assert move == LastHandMove(i.hands);
      if |i.hands| > 0 {
        Resolve(move, i.now, i.selected);
      }
      ghost var settled := State();
      assert settled == if |i.hands| > 0 then Settle(counted, LastHandMove(i.hands), i.now, i.selected) else counted;
      var outcome := if !holdForPlay && !timerStarted then Some(gameOverText + " " + computerPlayed) else None;
      var labelText := PressLabel;
      if holdForPlay {
        labelText := PlayNowLabel;
      } else if timerStarted {
        labelText := StartsInLabel + DecimalString(timeLeftNow);
      }
      frame := Frame(labelText, outcome, gameOverColour, drawn);
      assert frame == FrameOf(settled, drawn);
      if i.spacePressed {
        PressStart(i.now);
      }
    }
  }
}
