/**
 * The gesture classifier of RockPaperScissors/play.py: `get_finger_status`,
 * `get_thumb_status`, and the loop of `start_video` that packs the five
 * finger states of each detected hand into a "0"/"1" pattern and looks it
 * up. Landmarks come from the hand detector; the model takes them as input.
 */
module Gesture {
  import opened Resolver

  /** One landmark; coordinates are only ever compared, so they are reals. */
  datatype Landmark = Landmark(x: real, y: real)

  /** The detector reports 21 landmarks per hand. */
  const LandmarkCount := 21

  type Hand = h: seq<Landmark> | |h| >= LandmarkCount witness seq(21, _ => Landmark(0.0, 0.0))

  datatype Finger = Index | Middle | Ring | Pinky

  /** `finger_id_map`: the landmark index of each fingertip. */
  function TipId(f: Finger): nat {
    match f
    case Index => 8
    case Middle => 12
    case Ring => 16
    case Pinky => 20
  }

  /** The detector's THUMB_TIP landmark index. */
  const ThumbTip := 4

  /**
   * get_finger_status: extended iff the tip lies strictly above (smaller y)
   * the landmark two below it. The landmark in between is not consulted.
   */
  predicate FingerStatus(h: Hand, f: Finger) {
    var tip := TipId(f);
    h[tip].y < h[tip - 2].y
  }

  /** get_thumb_status: tip, IP joint and MCP joint strictly ordered on x. */
  predicate ThumbStatus(h: Hand) {
    h[ThumbTip].x > h[ThumbTip - 1].x > h[ThumbTip - 2].x
  }

  /** The five booleans, thumb first, in the order the pattern is built. */
  datatype FingerExtension = FingerExtension(thumb: bool, index: bool, middle: bool, ring: bool, pinky: bool)

  const AllCurled := FingerExtension(false, false, false, false, false)
  const AllExtended := FingerExtension(true, true, true, true, true)
  const TwoExtended := FingerExtension(false, true, true, false, false)

  function Extension(h: Hand): FingerExtension {
    FingerExtension(ThumbStatus(h), FingerStatus(h, Index), FingerStatus(h, Middle),
                    FingerStatus(h, Ring), FingerStatus(h, Pinky))
  }

  function Bit(b: bool): char {
    if b then '1' else '0'
  }

  /** The `current_state` string for one hand. */
  function Pattern(e: FingerExtension): string {
    [Bit(e.thumb), Bit(e.index), Bit(e.middle), Bit(e.ring), Bit(e.pinky)]
  }

  /** Reads a five-character pattern back into finger states. */
  function Unpack(p: string): FingerExtension
    requires |p| == 5
  {
    FingerExtension(p[0] == '1', p[1] == '1', p[2] == '1', p[3] == '1', p[4] == '1')
  }

  /** The pattern loses nothing: unpacking it gives back the finger states. */
  lemma UnpackPattern(e: FingerExtension)
    ensures |Pattern(e)| == 5 && Unpack(Pattern(e)) == e
  {
  }

  /** The exact-match lookup of `current_state`. */
  function Classify(p: string): Move {
    if p == "00000" then Rock
    else if p == "11111" then Paper
    else if p == "01100" then Scissors
    else Unknown
  }

  /**
   * Only three of the 32 finger patterns are recognised: all curled is
   * Rock, all extended is Paper, index and middle alone is Scissors.
   */
  lemma ClassifyExact(e: FingerExtension)
    ensures Classify(Pattern(e)) == Rock <==> e == AllCurled
    ensures Classify(Pattern(e)) == Paper <==> e == AllExtended
    ensures Classify(Pattern(e)) == Scissors <==> e == TwoExtended
    ensures Classify(Pattern(e)) == Unknown <==> e !in {AllCurled, AllExtended, TwoExtended}
  {
    UnpackPattern(e);
    UnpackPattern(AllCurled);
    UnpackPattern(AllExtended);
    UnpackPattern(TwoExtended);
    assert Pattern(AllCurled) == "00000";
    assert Pattern(AllExtended) == "11111";
    assert Pattern(TwoExtended) == "01100";
  }

  /** The move one hand shows. */
  function HandMove(h: Hand): Move {
    Classify(Pattern(Extension(h)))
  }

  /** HandMove in terms of the landmarks' finger states. */
  lemma HandMoveExact(h: Hand)
    ensures HandMove(h) == Rock <==>
      !ThumbStatus(h) && !FingerStatus(h, Index) && !FingerStatus(h, Middle)
      && !FingerStatus(h, Ring) && !FingerStatus(h, Pinky)
    ensures HandMove(h) == Paper <==>
      ThumbStatus(h) && FingerStatus(h, Index) && FingerStatus(h, Middle)
      && FingerStatus(h, Ring) && FingerStatus(h, Pinky)
    ensures HandMove(h) == Scissors <==>
      !ThumbStatus(h) && FingerStatus(h, Index) && FingerStatus(h, Middle)
      && !FingerStatus(h, Ring) && !FingerStatus(h, Pinky)
  {
    ClassifyExact(Extension(h));
  }

  /** A finger's state depends only on the y of its tip and of its base. */
  lemma FingerStatusReadsTipAndBase(h: Hand, h': Hand, f: Finger)
    requires h[TipId(f)].y == h'[TipId(f)].y && h[TipId(f) - 2].y == h'[TipId(f) - 2].y
    ensures FingerStatus(h, f) == FingerStatus(h', f)
  {
  }

  /** In particular, moving the middle joint (tip - 1) never changes it. */
  lemma FingerStatusIgnoresDip(h: Hand, f: Finger, p: Landmark)
    ensures FingerStatus(h[TipId(f) - 1 := p], f) == FingerStatus(h, f)
  {
  }

  /** A tip level with its base counts as curled. */
  lemma FingerTieIsCurled(h: Hand, f: Finger)
    requires h[TipId(f)].y == h[TipId(f) - 2].y
    ensures !FingerStatus(h, f)
  {
  }

  /** The thumb's state depends only on the x of its tip, IP and MCP joints. */
  lemma ThumbStatusReadsX(h: Hand, h': Hand)
    requires forall k :: ThumbTip - 2 <= k <= ThumbTip ==> h[k].x == h'[k].x
    ensures ThumbStatus(h) == ThumbStatus(h')
  {
    assert h[ThumbTip].x == h'[ThumbTip].x;
    assert h[ThumbTip - 1].x == h'[ThumbTip - 1].x;
    assert h[ThumbTip - 2].x == h'[ThumbTip - 2].x;
  }

  /** Any tie among the three thumb landmarks counts as curled. */
  lemma ThumbTieIsCurled(h: Hand)
    requires h[ThumbTip].x == h[ThumbTip - 1].x || h[ThumbTip - 1].x == h[ThumbTip - 2].x
    ensures !ThumbStatus(h)
  {
  }

  lemma DigitIsBit(b: bool)
    ensures (if b then "1" else "0") == [Bit(b)]
  {
  }

  /** Builds the pattern of one hand by appending a digit per finger. */
  method CurrentState(hand: Hand) returns (currentState: string)
    ensures currentState == Pattern(Extension(hand))
  {
    var e := Extension(hand);
    DigitIsBit(e.thumb);
    DigitIsBit(e.index);
    DigitIsBit(e.middle);
    DigitIsBit(e.ring);
    DigitIsBit(e.pinky);
    currentState := "";
    currentState := currentState + (if ThumbStatus(hand) then "1" else "0");
    assert currentState == [Bit(e.thumb)];
    currentState := currentState + (if FingerStatus(hand, Index) then "1" else "0");
    assert currentState == [Bit(e.thumb), Bit(e.index)];
    currentState := currentState + (if FingerStatus(hand, Middle) then "1" else "0");
    assert currentState == [Bit(e.thumb), Bit(e.index), Bit(e.middle)];
    currentState := currentState + (if FingerStatus(hand, Ring) then "1" else "0");
    assert currentState == [Bit(e.thumb), Bit(e.index), Bit(e.middle), Bit(e.ring)];
    currentState := currentState + (if FingerStatus(hand, Pinky) then "1" else "0");
  }

  /** The move of the last hand in the list; no hand gives Unknown. */
  function LastHandMove(hands: seq<Hand>): Move {
    if |hands| == 0 then Unknown else HandMove(hands[|hands| - 1])
  }

  /**
   * The classification loop of start_video: every hand overwrites `move`,
   * so the last hand decides; with no hand `move` stays "UNKNOWN".
   */
  method ClassifyHands(hands: seq<Hand>) returns (move: Move)
    ensures |hands| == 0 ==> move == Unknown
    ensures |hands| > 0 ==> move == HandMove(hands[|hands| - 1])
  {
    move := Unknown;
    var i := 0;
    while i < |hands|
      invariant 0 <= i <= |hands|
      invariant move == if i == 0 then Unknown else HandMove(hands[i - 1])
    {
      var hand := hands[i];
      var currentState := CurrentState(hand);
      if currentState == "00000" {
        move := Rock;
      } else if currentState == "11111" {
        move := Paper;
      } else if currentState == "01100" {
        move := Scissors;
      } else {
        move := Unknown;
      }
      i := i + 1;
    }
  }
}
