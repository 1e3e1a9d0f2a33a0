/**
 * The outcome resolver of the game: `calculate_game_state` in
 * RockPaperScissors/play.py. The computer's random draw is a parameter
 * (the index `random.randint(0, 2)` would have returned), so the
 * resolver is a pure function.
 */
module Resolver {

  datatype Option<T> = None | Some(value: T)

  /** A move as the game spells it; Unknown is the classifier's "UNKNOWN". */
  datatype Move = Rock | Paper | Scissors | Unknown

  /** The string the program uses for each move. */
  function Name(m: Move): string {
    match m
    case Rock => "Rock"
    case Paper => "Paper"
    case Scissors => "Scissors"
    case Unknown => "UNKNOWN"
  }

  /** The computer's moves, in the order the random index selects them. */
  const Moves: seq<Move> := [Rock, Paper, Scissors]

  /** A value `random.randint(0, 2)` can return. */
  type MoveIndex = i: int | 0 <= i < 3

  /** The `wins` dictionary: the move each key beats. Unknown is not a key. */
  function Wins(m: Move): Option<Move> {
    match m
    case Rock => Some(Scissors)
    case Paper => Some(Rock)
    case Scissors => Some(Paper)
    case Unknown => None
  }

  /** Position of a real move on the cycle Rock, Paper, Scissors. */
  function Position(m: Move): int
    requires m != Unknown
  {
    match m
    case Rock => 0
    case Paper => 1
    case Scissors => 2
  }

  /**
   * Reference definition of the beats-relation, independent of the table:
   * on the cycle Rock, Paper, Scissors each move beats the one before it.
   */
  predicate Beats(a: Move, b: Move) {
    a != Unknown && b != Unknown && Position(a) == (Position(b) + 1) % 3
  }

  /** The `wins` table is exactly the beats-relation. */
  lemma WinsTableIsBeats(a: Move, b: Move)
    ensures Wins(a) == Some(b) <==> Beats(a, b)
  {
  }

  /** The pair `(won, cmp_move)` that calculate_game_state returns. */
  datatype GameState = GameState(won: int, computer: Move)

  /**
   * calculate_game_state: None stands for the KeyError that `wins[move]`
   * raises when the player's move is not a key (only "UNKNOWN" is not).
   */
  function CalculateGameState(move: Move, selected: MoveIndex): (r: Option<GameState>)
    ensures r.None? <==> move == Unknown
    ensures r.Some? ==> r.value.computer == Moves[selected] && r.value.computer != Unknown
    ensures r.Some? ==> (r.value.won == 0 <==> move == r.value.computer)
    ensures r.Some? ==> (r.value.won == 1 <==> Beats(move, r.value.computer))
    ensures r.Some? ==> (r.value.won == -1 <==> Beats(r.value.computer, move))
  {
    var computer := Moves[selected];
    if computer == move then
      Some(GameState(0, computer))
    else
      match Wins(move)
      case None => None
      case Some(beaten) =>
        if beaten == computer then Some(GameState(1, computer))
        else Some(GameState(-1, computer))
  }

  /** Swapping the two players' moves negates the result. */
  lemma ResultAntisymmetric(i: MoveIndex, j: MoveIndex)
    ensures CalculateGameState(Moves[i], j).Some? && CalculateGameState(Moves[j], i).Some?
    ensures CalculateGameState(Moves[i], j).value.won == -CalculateGameState(Moves[j], i).value.won
  {
  }

  /**
   * For every real player move, the three possible draws give a draw, a
   * win and a loss, one each: under a uniform draw each outcome has
   * probability one third.
   */
  lemma EachOutcomeOnce(move: Move)
    requires move != Unknown
    ensures (set j: int | 0 <= j < 3 :: CalculateGameState(move, j).value.won) == {-1, 0, 1}
    ensures forall j: MoveIndex, k: MoveIndex ::
      CalculateGameState(move, j).value.won == CalculateGameState(move, k).value.won ==> j == k
  {
    var outcomes := set j: int | 0 <= j < 3 :: CalculateGameState(move, j).value.won;
    var w0 := CalculateGameState(move, 0).value.won;
    var w1 := CalculateGameState(move, 1).value.won;
    var w2 := CalculateGameState(move, 2).value.won;
    assert w0 != w1 && w1 != w2 && w0 != w2;
    assert w0 in outcomes && w1 in outcomes && w2 in outcomes;
    assert outcomes <= {w0, w1, w2};
  }
}
