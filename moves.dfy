/** Move algebra of the Rock-Paper-Scissors opponent: which move defeats which,
    how a round is decided, and how a uniform draw in [0, 1) picks a move. */
module Moves {

  datatype Move = Rock | Paper | Scissors

  /** Result of a round, always from the human player's point of view. */
  datatype Outcome = Win | Lose | Draw

  /** `MOVES`, indexed by `randMove`. */
  const AllMoves: seq<Move> := [Rock, Paper, Scissors]

  /** The bag the bot draws its own claim from: Rock twice, Paper and Scissors once. */
  const ClaimBag: seq<Move> := [Rock, Rock, Paper, Scissors]

  /** The move that `a` defeats. */
  function Beats(a: Move): (r: Move)
    ensures r != a
  {
    match a
    case Rock => Scissors
    case Paper => Rock
    case Scissors => Paper
  }

  /** The move that defeats `a`. */
  function BeatenBy(a: Move): (r: Move)
    ensures r != a
  {
    match a
    case Rock => Paper
    case Paper => Scissors
    case Scissors => Rock
  }

  /** `decide(player, bot)`: Draw on equal moves, Win when the player's move defeats the bot's. */
  function Decide(player: Move, bot: Move): (r: Outcome)
    ensures r == Draw <==> player == bot
    ensures r == Win <==> Beats(player) == bot
    ensures r == Lose <==> BeatenBy(player) == bot
  {
    if player == bot then Draw
    else if Beats(player) == bot then Win
    else Lose
  }

  /** `randMove()`: `MOVES[floor(r * 3)]` for a draw `r` of `Math.random()`; each move gets a third of [0, 1). */
  function RandMove(r: real): (m: Move)
    requires 0.0 <= r < 1.0
    ensures m == Rock <==> r < 1.0 / 3.0
    ensures m == Paper <==> 1.0 / 3.0 <= r < 2.0 / 3.0
    ensures m == Scissors <==> 2.0 / 3.0 <= r
  {
    AllMoves[(r * 3.0).Floor]
  }

  /** The bot's claim `bag[floor(r * 4)]`: Rock on half of [0, 1), Paper and Scissors on a quarter each. */
  function BagMove(r: real): (m: Move)
    requires 0.0 <= r < 1.0
    ensures m == Rock <==> r < 0.5
    ensures m == Paper <==> 0.5 <= r < 0.75
    ensures m == Scissors <==> 0.75 <= r
  {
    ClaimBag[(r * 4.0).Floor]
  }

  /** `beats` and `beatenBy` undo each other. */
  lemma InverseLaws(a: Move)
    ensures BeatenBy(Beats(a)) == a
    ensures Beats(BeatenBy(a)) == a
  {
  }

  /** Countering the counter of `a` is the move `a` defeats: `beatenBy(beatenBy(a)) == beats(a)`. */
  lemma BeatenByTwice(a: Move)
    ensures BeatenBy(BeatenBy(a)) == Beats(a)
  {
  }

  /** A win for one side is a loss for the other, and a draw is a draw for both. */
  lemma DecideSwap(p: Move, b: Move)
    ensures Decide(p, b) == Win <==> Decide(b, p) == Lose
    ensures Decide(p, b) == Draw <==> Decide(b, p) == Draw
  {
    InverseLaws(p);
    InverseLaws(b);
  }

  /** The canonical rule: Rock beats Scissors, Scissors beats Paper, Paper beats Rock. */
  lemma CanonicalRule(x: Move)
    ensures Decide(Rock, Scissors) == Win
    ensures Decide(Scissors, Paper) == Win
    ensures Decide(Paper, Rock) == Win
    ensures Decide(x, x) == Draw
  {
  }
}
