/**
 * Number guessing: a difficulty table, a secret drawn from the range, and a
 * guess handler that validates the range, counts attempts, gives a
 * higher/lower hint and ends the game on a hit or when the attempts run out.
 *
 * The text field is modelled by the number `Number(text)` yields: `None`
 * stands for `NaN`; an empty field yields 0.
 */
module NumberGuess {
  import opened Common
  import opened Randomness

  datatype Difficulty = Easy | Medium | Hard

  /** The range and the number of attempts `startGame` sets up. */
  datatype Setup = Setup(min: int, max: int, attempts: nat)

  function SetupFor(d: Difficulty): (s: Setup)
    ensures s.min == 1 && s.min <= s.max && s.attempts > 0
  {
    match d
    case Easy => Setup(1, 100, 10)
    case Medium => Setup(1, 200, 8)
    case Hard => Setup(1, 500, 6)
  }

  /** `generateRandomNumber`: `Math.floor(r * (max - min + 1)) + min`. */
  function GenerateRandomNumber(min: int, max: int, r: real): (n: int)
    requires min <= max && IsDraw(r)
    ensures min <= n <= max
  {
    RandomIndex(r, max - min + 1) + min
  }

  datatype Hint = Higher | Lower

  /** The message shown above the input; the texts are left out, their content kept. */
  datatype Message =
    | NoMessage
    | Intro(min: int, max: int, attempts: nat)
    | OutOfRange(min: int, max: int)
    | Congratulations(attempts: nat)
    | GameOver(secret: int)
    | TryAgain(hint: Hint, attemptsLeft: nat)

  /** What `Number('')` gives: the field after it is cleared. */
  const EmptyInput: Option<real> := Some(0.0)

  class Game {
    var minRange: int
    var maxRange: int
    var secretNumber: int
    var guess: Option<real>
    var message: Message
    var attempts: nat
    var maxAttempts: nat
    var gameOver: bool
    var gameStarted: bool
    var difficulty: Difficulty

    ghost predicate Valid()
      reads this
    {
      gameStarted ==>
        && minRange <= secretNumber <= maxRange
        && attempts <= maxAttempts
        && (!gameOver ==> attempts < maxAttempts)
    }

    constructor ()
      ensures Valid()
      ensures minRange == 1 && maxRange == 100 && secretNumber == 0 && guess == EmptyInput
      ensures message == NoMessage && attempts == 0 && maxAttempts == 10
      ensures !gameOver && !gameStarted && difficulty == Easy
    {
      minRange := 1;
      maxRange := 100;
      secretNumber := 0;
      guess := EmptyInput;
      message := NoMessage;
      attempts := 0;
      maxAttempts := 10;
      gameOver := false;
      gameStarted := false;
      difficulty := Easy;
    }

    method HandleDifficultyChange(d: Difficulty)
      modifies this`difficulty
      ensures difficulty == d
    {
      difficulty := d;
    }

    /** `handleInputChange`: the field now reads as `g`. */
    method HandleInputChange(g: Option<real>)
      modifies this`guess
      ensures guess == g
    {
      guess := g;
    }

    /**
     * `startGame`: the range and attempts of the difficulty, a secret drawn
     * with `r`, no attempts used, the game running.
     */
    method StartGame(r: real)
      requires IsDraw(r)
      modifies this
      ensures Valid()
      ensures var s := SetupFor(difficulty);
        minRange == s.min && maxRange == s.max && maxAttempts == s.attempts
      ensures secretNumber == GenerateRandomNumber(minRange, maxRange, r)
      ensures minRange <= secretNumber <= maxRange
      ensures attempts == 0 && !gameOver && gameStarted && guess == EmptyInput
      ensures message == Intro(minRange, maxRange, maxAttempts) && difficulty == old(difficulty)
    {
      var min := 1;
      var max := 100;
      var attemptsAllowed := 10;
      if difficulty == Medium {
        max := 200;
        attemptsAllowed := 8;
      } else if difficulty == Hard {
        max := 500;
        attemptsAllowed := 6;
      }
      minRange := min;
      maxRange := max;
      secretNumber := GenerateRandomNumber(min, max, r);
      attempts := 0;
      maxAttempts := attemptsAllowed;
      message := Intro(min, max, attemptsAllowed);
      guess := EmptyInput;
      gameOver := false;
      gameStarted := true;
    }

    /** The guess is a number inside the current range. */
    predicate InRange(g: Option<real>)
      reads this
    {
      g.Some? && minRange as real <= g.value <= maxRange as real
    }

    /**
     * `handleGuess`: a guess outside the range only changes the message;
     * any other guess uses one attempt and either wins, ends the game on
     * the last attempt, or hints at the direction of the secret.
     */
    method HandleGuess()
      requires Valid() && gameStarted && !gameOver
      modifies this
      ensures Valid()
      ensures minRange == old(minRange) && maxRange == old(maxRange) && secretNumber == old(secretNumber)
      ensures maxAttempts == old(maxAttempts) && gameStarted && difficulty == old(difficulty)
      ensures !old(InRange(guess)) ==>
        && message == OutOfRange(minRange, maxRange)
        && attempts == old(attempts) && !gameOver && guess == old(guess)
      ensures old(InRange(guess)) ==>
        && attempts == old(attempts) + 1
        && guess == EmptyInput
        && var g := old(guess).value;
          if g == secretNumber as real then
            gameOver && message == Congratulations(attempts)
          else if attempts >= maxAttempts then
            gameOver && message == GameOver(secretNumber)
          else
            && !gameOver
            && message == TryAgain(if g < secretNumber as real then Higher else Lower, maxAttempts - attempts)
    {
      if guess.None? || guess.value < minRange as real || guess.value > maxRange as real {
        message := OutOfRange(minRange, maxRange);
        return;
      }
      var numGuess := guess.value;
      var newAttempts := attempts + 1;
      attempts := newAttempts;
      if numGuess == secretNumber as real {
        message := Congratulations(newAttempts);
        gameOver := true;
      } else {
        var hint := if numGuess < secretNumber as real then Higher else Lower;
        if newAttempts >= maxAttempts {
          message := GameOver(secretNumber);
          gameOver := true;
        } else {
          var attemptsLeft := maxAttempts - newAttempts;
          message := TryAgain(hint, attemptsLeft);
        }
      }
      guess := EmptyInput;
    }

    /** `handleKeyPress`: Enter submits the guess while a game is running; any other key does nothing. */
    method HandleKeyPress(isEnter: bool)
      requires Valid()
      modifies this
      ensures Valid()
      ensures !(isEnter && !old(gameOver) && old(gameStarted)) ==>
        && minRange == old(minRange) && maxRange == old(maxRange) && secretNumber == old(secretNumber)
        && guess == old(guess) && message == old(message) && attempts == old(attempts)
        && maxAttempts == old(maxAttempts) && gameOver == old(gameOver) && gameStarted == old(gameStarted)
        && difficulty == old(difficulty)
      ensures isEnter && !old(gameOver) && old(gameStarted) ==>
        && minRange == old(minRange) && maxRange == old(maxRange) && secretNumber == old(secretNumber)
        && maxAttempts == old(maxAttempts) && gameStarted && difficulty == old(difficulty)
        && (!old(InRange(guess)) ==>
          && message == OutOfRange(minRange, maxRange)
          && attempts == old(attempts) && !gameOver && guess == old(guess))
        && (old(InRange(guess)) ==>
          && attempts == old(attempts) + 1
          && guess == EmptyInput
          && var g := old(guess).value;
            if g == secretNumber as real then
              gameOver && message == Congratulations(attempts)
            else if attempts >= maxAttempts then
              gameOver && message == GameOver(secretNumber)
            else
              && !gameOver
              && message == TryAgain(if g < secretNumber as real then Higher else Lower, maxAttempts - attempts))
    {
      if isEnter && !gameOver && gameStarted {
        HandleGuess();
      }
    }
  }
}
