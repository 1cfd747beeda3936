/** The two scores, the round counter and the winner derived from them. */
module Scoring {
  import opened Settings

  /** `winner`: player one on reaching WinScore, else player two on reaching it,
      else 0 (nobody). */
  function WinnerOf(playerOneScore: nat, playerTwoScore: nat): (w: int)
    ensures w == PlayerOne <==> playerOneScore >= WinScore
    ensures w == PlayerTwo <==> playerOneScore < WinScore <= playerTwoScore
    ensures w == 0 <==> playerOneScore < WinScore && playerTwoScore < WinScore
  {
    if playerOneScore >= WinScore then PlayerOne
    else if playerTwoScore >= WinScore then PlayerTwo
    else 0
  }

  class ScoreBoard {
    var playerOneScore: nat
    var playerTwoScore: nat
    var round: nat

    constructor ()
      ensures playerOneScore == 0 && playerTwoScore == 0 && round == 0
    {
      new;
      Reset();
    }

    function Winner(): int
      reads this
    {
      WinnerOf(playerOneScore, playerTwoScore)
    }

    method Reset()
      modifies this
      ensures playerOneScore == 0 && playerTwoScore == 0 && round == 0
    {
      playerOneScore := 0;
      playerTwoScore := 0;
      round := 0;
    }
  }
}
