/**
 * Rock-paper-scissors: the outcome rule, the computer's random choice, the
 * score counters and the "thinking" delay, which is the explicit step
 * `Reveal`.
 */
module RockPaperScissors {
  import opened Common
  import opened Randomness

  datatype Choice = Rock | Paper | Scissors

  /** The options, in the order the computer's draw indexes them. */
  const Choices: seq<Choice> := [Rock, Paper, Scissors]

  datatype Outcome = Tie | PlayerWins | ComputerWins

  /** Position of a choice on the cycle rock, paper, scissors: each beats the one before it. */
  function Rank(c: Choice): int {
    match c
    case Rock => 0
    case Paper => 1
    case Scissors => 2
  }

  /**
   * The outcome of `determineWinner`: a tie on equal choices, a player win
   * exactly when the player's choice is one step after the computer's on the
   * cycle, and a computer win otherwise.
   */
  function DetermineWinner(player: Choice, computer: Choice): (r: Outcome)
    ensures r == Tie <==> player == computer
    ensures r == PlayerWins <==> (Rank(player) - Rank(computer)) % 3 == 1
    ensures r == ComputerWins <==> (Rank(computer) - Rank(player)) % 3 == 1
  {
    if player == computer then Tie
    else if
      || (player == Rock && computer == Scissors)
      || (player == Paper && computer == Rock)
      || (player == Scissors && computer == Paper)
    then PlayerWins
    else ComputerWins
  }

  function Swapped(r: Outcome): Outcome {
    match r
    case Tie => Tie
    case PlayerWins => ComputerWins
    case ComputerWins => PlayerWins
  }

  /** Exchanging the two choices exchanges the winner. */
  lemma DetermineWinnerAntisymmetric(a: Choice, b: Choice)
    ensures DetermineWinner(b, a) == Swapped(DetermineWinner(a, b))
  {
  }

  /** `getComputerChoice`: the draw `r` picks rock below 1/3, paper below 2/3, scissors above. */
  function GetComputerChoice(r: real): (c: Choice)
    requires IsDraw(r)
    ensures c == Rock <==> r < 1.0 / 3.0
    ensures c == Scissors <==> 2.0 / 3.0 <= r
  {
    Choices[RandomIndex(r, |Choices|)]
  }

  class Game {
    var playerChoice: Option<Choice>
    var computerChoice: Option<Choice>
    /** The result text; `None` is the empty string. */
    var result: Option<Outcome>
    var playerScore: nat
    var computerScore: nat
    var isAnimating: bool
    /** The player's choice captured by the pending "thinking" callback. */
    var pending: Choice

    /** Every decisive round adds two to one score, so both scores stay even. */
    ghost predicate Valid()
      reads this
    {
      playerScore % 2 == 0 && computerScore % 2 == 0
    }

    constructor ()
      ensures Valid()
      ensures playerChoice.None? && computerChoice.None? && result.None?
      ensures playerScore == 0 && computerScore == 0 && !isAnimating
    {
      playerChoice := None;
      computerChoice := None;
      result := None;
      playerScore := 0;
      computerScore := 0;
      isAnimating := false;
      pending := Rock;
    }

    /** The score side effect of one `determineWinner` call. */
    method Tally(outcome: Outcome)
      modifies this`playerScore, this`computerScore
      ensures playerScore == old(playerScore) + (if outcome == PlayerWins then 1 else 0)
      ensures computerScore == old(computerScore) + (if outcome == ComputerWins then 1 else 0)
    {
      if outcome == PlayerWins {
        playerScore := playerScore + 1;
      } else if outcome == ComputerWins {
        computerScore := computerScore + 1;
      }
    }

    /**
     * `handlePlayerChoice`: ignored while animating; otherwise show the
     * player's choice, clear the computer's choice and the result, and
     * start thinking.
     */
    method HandlePlayerChoice(choice: Choice)
      requires Valid()
      modifies this
      ensures Valid()
      ensures old(isAnimating) ==>
        && playerChoice == old(playerChoice) && computerChoice == old(computerChoice)
        && result == old(result) && pending == old(pending) && isAnimating
      ensures !old(isAnimating) ==>
        && isAnimating && playerChoice == Some(choice) && computerChoice.None? && result.None?
        && pending == choice
      ensures playerScore == old(playerScore) && computerScore == old(computerScore)
    {
      if isAnimating {
        return;
      }
      isAnimating := true;
      playerChoice := Some(choice);
      computerChoice := None;
      result := None;
      pending := choice;
    }

    /**
     * The callback after the thinking delay: the computer chooses with draw
     * `r`, the result is shown and animation stops. `determineWinner` runs
     * once for the result and once more for the notification, so a decisive
     * round adds 2 to the winner's counter.
     */
    method Reveal(r: real)
      requires Valid() && isAnimating && IsDraw(r)
      modifies this
      ensures Valid()
      ensures computerChoice == Some(GetComputerChoice(r)) && !isAnimating
      ensures result == Some(DetermineWinner(pending, computerChoice.value))
      ensures playerScore == old(playerScore) + (if result.value == PlayerWins then 2 else 0)
      ensures computerScore == old(computerScore) + (if result.value == ComputerWins then 2 else 0)
      ensures playerChoice == old(playerChoice) && pending == old(pending)
    {
      var compChoice := GetComputerChoice(r);
      computerChoice := Some(compChoice);
      var outcome := DetermineWinner(pending, compChoice);
      Tally(outcome);
      result := Some(outcome);
      isAnimating := false;
      var notified := DetermineWinner(pending, compChoice);
      Tally(notified);
    }

    /** `resetGame`: clear both choices and the result; the scores stay. */
    method ResetGame()
      requires Valid()
      modifies this
      ensures Valid()
      ensures playerChoice.None? && computerChoice.None? && result.None?
      ensures playerScore == old(playerScore) && computerScore == old(computerScore)
      ensures isAnimating == old(isAnimating) && pending == old(pending)
    {
      playerChoice := None;
      computerChoice := None;
      result := None;
    }
  }
}
