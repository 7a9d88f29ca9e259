/** Match state shared by the ball step and the game loop: the two scores and the winning threshold. */
module Scoring {

  /** A side wins on reaching this many points. */
  const MAX_SCORE: nat := 10

  /** The two scores; the ball step increments them and a game reset clears them. */
  class Scoreboard {
    var left: nat
    var right: nat

    constructor ()
      ensures left == 0 && right == 0
    {
      left, right := 0, 0;
    }
  }
}
