/**
 * The memory matching game: a shuffled board of emoji pairs, a click state
 * machine that turns up at most two cards at a time, the delayed resolution
 * of a turned-up pair, the end-of-game test, the final score and the `m:ss`
 * clock display.
 *
 * The two delayed callbacks scheduled by a second flip (match after 500 ms,
 * mismatch after 1000 ms) are one explicit step, `Resolve`; the one-second
 * interval is the explicit step `Tick`.
 */
module MemoryGame {
  import opened Common
  import opened Randomness

  datatype Difficulty = Easy | Medium | Hard

  /** Number of emoji pairs on the board. */
  function Pairs(d: Difficulty): nat {
    match d
    case Easy => 6
    case Medium => 10
    case Hard => 12
  }

  /** Seconds after which the time penalty is at its maximum. */
  function MaxTime(d: Difficulty): real {
    match d
    case Easy => 60.0
    case Medium => 120.0
    case Hard => 180.0
  }

  /** The emoji pool; every emoji of the pool is a single code point. */
  const Emojis: seq<char> := [
    '\U{1F436}', '\U{1F431}', '\U{1F42D}', '\U{1F439}', '\U{1F430}', '\U{1F98A}', '\U{1F43B}', '\U{1F43C}',
    '\U{1F428}', '\U{1F42F}', '\U{1F981}', '\U{1F42E}', '\U{1F437}', '\U{1F438}', '\U{1F435}', '\U{1F414}',
    '\U{1F427}', '\U{1F986}', '\U{1F989}', '\U{1F987}', '\U{1F43A}', '\U{1F417}', '\U{1F434}', '\U{1F984}'
  ]

  lemma EmojiPoolDistinct()
    ensures |Emojis| == 24 && Distinct(Emojis)
  {
  }

  /** A prefix of a shuffle of a repetition-free pool repeats nothing and comes from the pool. */
  lemma ShuffledPrefix(pool: seq<char>, order: seq<nat>, k: nat)
    requires IsPermutation(order, |pool|) && Distinct(pool) && k <= |pool|
    ensures Distinct(Permute(pool, order)[..k])
    ensures forall e :: e in Permute(pool, order)[..k] ==> e in pool
  {
    var shuffled := Permute(pool, order);
    PermuteKeepsMultiset(pool, order);
    forall e | e in shuffled[..k] ensures e in pool {
      assert e in multiset(shuffled);
    }
  }

  datatype Card = Card(id: nat, emoji: char, isFlipped: bool, isMatched: bool)

  /** The emojis shown by a row of cards. */
  function Faces(cards: seq<Card>): (faces: seq<char>)
    ensures |faces| == |cards|
  {
    seq(|cards|, i requires 0 <= i < |cards| => cards[i].emoji)
  }

  /** Every emoji on the board occurs on exactly two cards. */
  ghost predicate EachFaceTwice(faces: seq<char>) {
    forall e :: e in faces ==> multiset(faces)[e] == 2
  }

  /**
   * The emojis of the round: the pool in the order the shuffle `poolOrder`
   * gives, cut to the number of pairs.
   */
  function SelectEmojis(d: Difficulty, poolOrder: seq<nat>): (chosen: seq<char>)
    requires IsPermutation(poolOrder, |Emojis|)
    ensures |chosen| == Pairs(d)
    ensures Distinct(chosen)
    ensures forall e :: e in chosen ==> e in Emojis
  {
    EmojiPoolDistinct();
    ShuffledPrefix(Emojis, poolOrder, Pairs(d));
    Permute(Emojis, poolOrder)[..Pairs(d)]
  }

  /**
   * The board: the chosen emojis twice over, in the order the shuffle
   * `deckOrder` gives, numbered by position and all face down.
   */
  function Deal(chosen: seq<char>, deckOrder: seq<nat>): (deck: seq<Card>)
    requires IsPermutation(deckOrder, 2 * |chosen|)
    ensures |deck| == 2 * |chosen|
    ensures forall i :: 0 <= i < |deck| ==> deck[i].id == i && !deck[i].isFlipped && !deck[i].isMatched
    ensures forall i :: 0 <= i < |deck| ==> deck[i].emoji == (chosen + chosen)[deckOrder[i]]
    ensures multiset(Faces(deck)) == multiset(chosen + chosen)
  {
    var faces := Permute(chosen + chosen, deckOrder);
    PermuteKeepsMultiset(chosen + chosen, deckOrder);
    var deck := seq(|faces|, i requires 0 <= i < |faces| => Card(i, faces[i], false, false));
    assert Faces(deck) == faces;
    deck
  }

  /** The board `initializeGame` builds for difficulty `d`. */
  function BuildDeck(d: Difficulty, poolOrder: seq<nat>, deckOrder: seq<nat>): (deck: seq<Card>)
    requires IsPermutation(poolOrder, |Emojis|)
    requires IsPermutation(deckOrder, 2 * Pairs(d))
    ensures |deck| == 2 * Pairs(d)
    ensures forall i :: 0 <= i < |deck| ==> deck[i].id == i && !deck[i].isFlipped && !deck[i].isMatched
    ensures forall e :: multiset(Faces(deck))[e] == if e in SelectEmojis(d, poolOrder) then 2 else 0
    ensures EachFaceTwice(Faces(deck))
  {
    var chosen := SelectEmojis(d, poolOrder);
    var deck := Deal(chosen, deckOrder);
    forall e ensures multiset(Faces(deck))[e] == if e in chosen then 2 else 0 {
      DistinctOccursOnce(chosen, e);
    }
    deck
  }

  /** Changing only the flags of one card leaves the board's emojis as they were. */
  lemma FacesIgnoreFlags(cards: seq<Card>, i: nat, c: Card)
    requires i < |cards| && c.emoji == cards[i].emoji
    ensures Faces(cards[i := c]) == Faces(cards)
  {
    assert forall k :: 0 <= k < |cards| ==> Faces(cards[i := c])[k] == Faces(cards)[k];
  }

  class Game {
    var difficulty: Difficulty
    var cards: array<Card>
    var flippedCards: seq<nat>
    var moves: nat
    var gameStarted: bool
    var gameOver: bool
    var timer: nat
    /** The one-second interval is installed (`timerInterval` is not null). */
    var timerRunning: bool

    ghost predicate AllMatched()
      reads this, cards
    {
      forall i :: 0 <= i < cards.Length ==> cards[i].isMatched
    }

    ghost predicate Valid()
      reads this, cards
    {
      && (forall i :: 0 <= i < cards.Length ==> cards[i].id == i)
      && (forall i :: 0 <= i < cards.Length ==> cards[i].isMatched ==> cards[i].isFlipped)
      && |flippedCards| <= 2
      && (forall k :: 0 <= k < |flippedCards| ==> flippedCards[k] < cards.Length)
      && Distinct(flippedCards)
      // the turned-up, unmatched cards are exactly the pending ones
      && (forall i :: 0 <= i < cards.Length ==> (cards[i].isFlipped && !cards[i].isMatched <==> i in flippedCards))
      && (gameStarted <==> cards.Length > 0)
      && (gameStarted ==> cards.Length == 2 * Pairs(difficulty) && EachFaceTwice(Faces(cards[..])))
      && (gameOver <==> gameStarted && AllMatched())
      && (timerRunning <==> gameStarted && !gameOver)
    }

    constructor ()
      ensures Valid()
      ensures difficulty == Easy && cards.Length == 0 && flippedCards == [] && moves == 0
      ensures !gameStarted && !gameOver && timer == 0 && !timerRunning
    {
      difficulty := Easy;
      cards := new Card[0];
      flippedCards := [];
      moves := 0;
      gameStarted := false;
      gameOver := false;
      timer := 0;
      timerRunning := false;
    }

    /** The difficulty selector is shown only before a round starts. */
    method HandleDifficultyChange(d: Difficulty)
      requires Valid() && !gameStarted
      modifies this
      ensures Valid() && difficulty == d
      ensures cards == old(cards) && flippedCards == old(flippedCards) && moves == old(moves)
      ensures gameStarted == old(gameStarted) && gameOver == old(gameOver)
      ensures timer == old(timer) && timerRunning == old(timerRunning)
    {
      difficulty := d;
    }

    /** `initializeGame`: a fresh board for the current difficulty and a reset round. */
    method InitializeGame(poolOrder: seq<nat>, deckOrder: seq<nat>)
      requires IsPermutation(poolOrder, |Emojis|)
      requires IsPermutation(deckOrder, 2 * Pairs(difficulty))
      modifies this
      ensures Valid() && fresh(cards) && difficulty == old(difficulty)
      ensures cards[..] == BuildDeck(difficulty, poolOrder, deckOrder)
      ensures flippedCards == [] && moves == 0
      ensures gameStarted && !gameOver && timer == 0 && timerRunning
    {
      var deck := BuildDeck(difficulty, poolOrder, deckOrder);
      cards := new Card[|deck|](i requires 0 <= i < |deck| => deck[i]);
      assert cards[..] == deck;
      flippedCards := [];
      moves := 0;
      gameOver := false;
      timer := 0;
      timerRunning := true;
      gameStarted := true;
      assert !AllMatched() by {
        assert !cards[0].isMatched;
      }
    }

    /** A click on card `id` is accepted. */
    predicate CanFlip(id: nat)
      reads this, cards
      requires id < cards.Length
    {
      !cards[id].isFlipped && !cards[id].isMatched && |flippedCards| < 2 && !gameOver
    }

    /**
     * `handleCardClick`: turn card `id` up and record it as pending; the
     * second pending card counts one move. A refused click changes nothing.
     */
    method HandleCardClick(id: nat)
      requires Valid() && id < cards.Length
      modifies this, cards
      ensures Valid() && cards == old(cards)
      ensures !old(CanFlip(id)) ==>
        cards[..] == old(cards[..]) && flippedCards == old(flippedCards) && moves == old(moves)
      ensures old(CanFlip(id)) ==>
        && cards[..] == old(cards[..])[id := old(cards[id]).(isFlipped := true)]
        && flippedCards == old(flippedCards) + [id]
        && moves == old(moves) + (if |flippedCards| == 2 then 1 else 0)
      ensures difficulty == old(difficulty) && gameStarted == old(gameStarted) && gameOver == old(gameOver)
      ensures timer == old(timer) && timerRunning == old(timerRunning)
    {
      if cards[id].isFlipped || cards[id].isMatched || |flippedCards| >= 2 || gameOver {
        return;
      }
      ghost var before := cards[..];
      cards[id] := cards[id].(isFlipped := true);
      FacesIgnoreFlags(before, id, cards[id]);
      assert cards[..] == before[id := cards[id]];
      flippedCards := flippedCards + [id];
      if |flippedCards| == 2 {
        moves := moves + 1;
      }
    }

    /** `matchedCards.every(card => card.isMatched)`. */
    method EveryMatched() returns (all: bool)
      ensures all <==> forall i :: 0 <= i < cards.Length ==> cards[i].isMatched
    {
      var i := 0;
      while i < cards.Length
        invariant 0 <= i <= cards.Length
        invariant forall k :: 0 <= k < i ==> cards[k].isMatched
      {
        if !cards[i].isMatched {
          return false;
        }
        i := i + 1;
      }
      return true;
    }

    /** `endGame`: the round is over and the interval is cleared. */
    method EndGame()
      modifies this
      ensures gameOver && !timerRunning
      ensures difficulty == old(difficulty) && cards == old(cards) && flippedCards == old(flippedCards)
      ensures moves == old(moves) && gameStarted == old(gameStarted) && timer == old(timer)
    {
      gameOver := true;
      timerRunning := false;
    }

    /**
     * The delayed callback of a second flip: equal emojis become matched and
     * stay up, different emojis are turned down again; either way nothing is
     * pending afterwards, and the round ends when every card is matched.
     */
    method Resolve()
      requires Valid() && |flippedCards| == 2
      modifies this, cards
      ensures Valid() && cards == old(cards) && flippedCards == []
      ensures var a, b := old(flippedCards[0]), old(flippedCards[1]);
        cards[..] ==
          if old(cards[a].emoji == cards[b].emoji) then
            old(cards[..])[a := old(cards[a]).(isMatched := true)][b := old(cards[b]).(isMatched := true)]
          else
            old(cards[..])[a := old(cards[a]).(isFlipped := false)][b := old(cards[b]).(isFlipped := false)]
      ensures !old(gameOver) && (gameOver <==> AllMatched())
      ensures difficulty == old(difficulty) && moves == old(moves) && gameStarted == old(gameStarted)
      ensures timer == old(timer)
    {
      var a, b := flippedCards[0], flippedCards[1];
      ghost var before := cards[..];
      assert !cards[a].isMatched;
      if cards[a].emoji == cards[b].emoji {
        cards[a] := cards[a].(isMatched := true);
        FacesIgnoreFlags(before, a, cards[a]);
        ghost var mid := cards[..];
        assert mid == before[a := cards[a]];
        cards[b] := cards[b].(isMatched := true);
        FacesIgnoreFlags(mid, b, cards[b]);
        assert cards[..] == mid[b := cards[b]];
        flippedCards := [];
        var all := EveryMatched();
        if all {
          EndGame();
        }
      } else {
        cards[a] := cards[a].(isFlipped := false);
        FacesIgnoreFlags(before, a, cards[a]);
        ghost var mid := cards[..];
        assert mid == before[a := cards[a]];
        cards[b] := cards[b].(isFlipped := false);
        FacesIgnoreFlags(mid, b, cards[b]);
        assert cards[..] == mid[b := cards[b]];
        flippedCards := [];
        assert !AllMatched() by {
          assert !cards[a].isMatched;
        }
      }
    }

    /** One period of the interval: the clock advances while it is installed. */
    method Tick()
      requires Valid()
      modifies this
      ensures Valid()
      ensures timer == old(timer) + (if old(timerRunning) then 1 else 0)
      ensures difficulty == old(difficulty) && cards == old(cards) && flippedCards == old(flippedCards)
      ensures moves == old(moves) && gameStarted == old(gameStarted) && gameOver == old(gameOver)
      ensures timerRunning == old(timerRunning)
    {
      if timerRunning {
        timer := timer + 1;
      }
    }

    /**
     * `calculateScore`, as shown when the game is over: the scoring rule
     * with the moves measured against the number of cards, which is twice
     * the difficulty's pairs.
     */
    function CalculateScore(): (score: int)
      reads this, cards
      requires Valid() && gameOver
      ensures score == Score(difficulty, timer, moves, 2 * Pairs(difficulty))
      ensures 0 <= score <= 1000
    {
      Score(difficulty, timer, moves, cards.Length)
    }

    /** `resetGame`: no board, nothing pending, counters zeroed, interval cleared. */
    method ResetGame()
      modifies this
      ensures Valid() && fresh(cards)
      ensures cards.Length == 0 && flippedCards == [] && moves == 0 && timer == 0
      ensures !gameStarted && !gameOver && !timerRunning && difficulty == old(difficulty)
    {
      gameStarted := false;
      gameOver := false;
      cards := new Card[0];
      flippedCards := [];
      moves := 0;
      timer := 0;
      timerRunning := false;
    }
  }

  /** `Math.round`: the nearest integer, halves rounded up. */
  function Round(x: real): (n: int)
    ensures x - 0.5 < n as real <= x + 0.5
  {
    (x + 0.5).Floor
  }

  function MinReal(a: real, b: real): real {
    if a <= b then a else b
  }

  /**
   * `calculateScore`: 1000 points, less up to 500 for time (reached at the
   * difficulty's time budget) and up to 500 for moves (reached at one move
   * per card), rounded.
   */
  function Score(d: Difficulty, timer: nat, moves: nat, cardCount: nat): (score: int)
    requires cardCount > 0
    ensures 0 <= score <= 1000
  {
    var timePenalty := MinReal(timer as real / MaxTime(d), 1.0) * 500.0;
    var movesPenalty := MinReal(moves as real / cardCount as real, 1.0) * 500.0;
    Round(1000.0 - timePenalty - movesPenalty)
  }

  /** A later finish never scores more. */
  lemma ScoreFallsWithTime(d: Difficulty, t1: nat, t2: nat, moves: nat, cardCount: nat)
    requires cardCount > 0 && t1 <= t2
    ensures Score(d, t2, moves, cardCount) <= Score(d, t1, moves, cardCount)
  {
    var m := MaxTime(d);
    assert t1 as real / m <= t2 as real / m by {
      assert (t2 as real - t1 as real) / m >= 0.0;
    }
  }

  /** More moves never score more. */
  lemma ScoreFallsWithMoves(d: Difficulty, timer: nat, m1: nat, m2: nat, cardCount: nat)
    requires cardCount > 0 && m1 <= m2
    ensures Score(d, timer, m2, cardCount) <= Score(d, timer, m1, cardCount)
  {
    var c := cardCount as real;
    assert m1 as real / c <= m2 as real / c by {
      assert (m2 as real - m1 as real) / c >= 0.0;
    }
  }

  // ---- `formatTime` ----

  predicate IsDigit(c: char) {
    '0' <= c <= '9'
  }

  predicate AllDigits(s: string) {
    forall i :: 0 <= i < |s| ==> IsDigit(s[i])
  }

  function DigitChar(d: nat): (c: char)
    requires d < 10
    ensures IsDigit(c) && DigitValue(c) == d
  {
    (48 + d) as char
  }

  function DigitValue(c: char): nat
    requires IsDigit(c)
  {
    c as nat - 48
  }

  /** Decimal numeral of `n`, as JavaScript prints a non-negative integer. */
  function NatToString(n: nat): (s: string)
    ensures 1 <= |s| && AllDigits(s)
    ensures s[0] == '0' ==> s == "0"
    ensures n < 10 ==> |s| == 1
    ensures 10 <= n < 100 ==> |s| == 2
  {
    if n < 10 then [DigitChar(n)] else NatToString(n / 10) + [DigitChar(n % 10)]
  }

  /** The value of a decimal numeral. */
  function ParseNat(s: string): nat
    requires AllDigits(s)
  {
    if s == [] then 0 else 10 * ParseNat(s[..|s| - 1]) + DigitValue(s[|s| - 1])
  }

  lemma {:induction false} ParseNatToString(n: nat)
    ensures ParseNat(NatToString(n)) == n
  {
    if n >= 10 {
      var s := NatToString(n);
      assert s[..|s| - 1] == NatToString(n / 10);
      ParseNatToString(n / 10);
    }
  }

  /**
   * `formatTime`: whole minutes, a colon, then the remaining seconds as
   * exactly two digits.
   */
  function FormatTime(seconds: nat): (t: string)
    ensures |t| >= 4 && t[|t| - 3] == ':'
    ensures t[0] == '0' ==> t[..|t| - 3] == "0"
    ensures AllDigits(t[..|t| - 3]) && AllDigits(t[|t| - 2..])
    ensures ParseNat(t[..|t| - 3]) == seconds / 60
    ensures ParseNat(t[|t| - 2..]) == seconds % 60
  {
    var mins := seconds / 60;
    var secs := seconds % 60;
    var m := NatToString(mins);
    var s := (if secs < 10 then "0" else "") + NatToString(secs);
    var t := m + ":" + s;
    ParseNatToString(mins);
    ParseNatToString(secs);
    assert t[..|t| - 3] == m;
    assert t[|t| - 2..] == s;
    assert secs < 10 ==> s[..1] == "0";
    assert t[0] == m[0];
    t
  }

  /** A finish in 45 seconds with 14 moves on the easy board of 12 cards scores 125. */
  lemma ScoreExample()
    ensures Score(Easy, 45, 14, 12) == 125
  {
  }

  /** Hard, 12 seconds and 23 moves is exactly 487.5, which rounds up to 488. */
  lemma ScoreHalfWay()
    ensures Score(Hard, 12, 23, 24) == 488
  {
  }

  /** 65 seconds show as `1:05`, and 600 as `10:00`. */
  lemma FormatTimeExamples()
    ensures FormatTime(65) == "1:05"
    ensures FormatTime(600) == "10:00"
  {
  }
}
