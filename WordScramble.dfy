/**
 * The word scramble game of the home page banner: a Fisher-Yates shuffle of
 * the letters that is repeated until the word changes, a 30-second countdown,
 * a point per correct answer and time penalties for wrong answers and hints.
 *
 * `Math.random()` draws are supplied by the caller: the draw used at swap
 * position `i` of a shuffle is `rs[i]` (`rs[0]` is never used), and each
 * retry of the shuffle has its own draws.
 */
module WordScramble {
  import opened Common
  import opened Randomness

  datatype WordEntry = WordEntry(original: string, hint: string)

  const Words: seq<WordEntry> := [
    WordEntry("GAMES", "What you play for fun"),
    WordEntry("PUZZLE", "A problem designed to test ingenuity"),
    WordEntry("PLAYER", "Someone who plays games"),
    WordEntry("VICTORY", "Success in a game or competition"),
    WordEntry("CHALLENGE", "Something that tests your abilities")
  ]

  /** The swap partner of position `i`: `Math.floor(r * (i + 1))`, never past `i`. */
  function SwapIndex(r: real, i: nat): (j: nat)
    requires IsDraw(r)
    ensures j <= i
  {
    RandomIndex(r, i + 1)
  }

  /** `s` with positions `i` and `j` exchanged. */
  function Swap(s: string, i: nat, j: nat): (t: string)
    requires i < |s| && j < |s|
    ensures |t| == |s| && t[i] == s[j] && t[j] == s[i]
    ensures forall k :: 0 <= k < |s| && k != i && k != j ==> t[k] == s[k]
  {
    s[i := s[j]][j := s[i]]
  }

  /** Draws for a shuffle of a word of `n` letters. */
  predicate DrawsFor(rs: seq<real>, n: nat) {
    |rs| == n && AllDraws(rs)
  }

  /** The swaps of the descending loop from position `i` down to position 1. */
  function ShuffleDown(s: string, rs: seq<real>, i: int): string
    requires DrawsFor(rs, |s|) && i < |s|
    decreases i
  {
    if i <= 0 then s else ShuffleDown(Swap(s, i, SwapIndex(rs[i], i)), rs, i - 1)
  }

  /** One pass of the shuffle loop over the whole word. */
  function FisherYates(s: string, rs: seq<real>): string
    requires DrawsFor(rs, |s|)
  {
    ShuffleDown(s, rs, |s| - 1)
  }

  /** One swap loses and duplicates no letter. */
  lemma SwapKeepsLetters(s: string, i: nat, j: nat)
    requires i < |s| && j < |s|
    ensures multiset(Swap(s, i, j)) == multiset(s)
  {
    var u := s[i := s[j]];
    assert multiset(u) == multiset(s) - multiset{s[i]} + multiset{s[j]};
    assert Swap(s, i, j) == u[j := s[i]];
    assert multiset(u[j := s[i]]) == multiset(u) - multiset{u[j]} + multiset{s[i]};
  }

  /** The swaps of a shuffle lose and duplicate no letter. */
  lemma {:induction false} ShuffleDownKeepsLetters(s: string, rs: seq<real>, i: int)
    requires DrawsFor(rs, |s|) && i < |s|
    ensures |ShuffleDown(s, rs, i)| == |s|
    ensures multiset(ShuffleDown(s, rs, i)) == multiset(s)
    decreases i
  {
    if i > 0 {
      var j := SwapIndex(rs[i], i);
      var t := Swap(s, i, j);
      SwapKeepsLetters(s, i, j);
      ShuffleDownKeepsLetters(t, rs, i - 1);
    }
  }

  /**
   * The loop of `scrambleWord` on the letter array: positions from the last
   * down to 1 each swap with a position at or below them.
   */
  method Shuffle(chars: array<char>, rs: seq<real>)
    requires DrawsFor(rs, chars.Length)
    modifies chars
    ensures chars[..] == FisherYates(old(chars[..]), rs)
  {
    var i := chars.Length - 1;
    while i > 0
      invariant -1 <= i < chars.Length
      invariant ShuffleDown(chars[..], rs, i) == FisherYates(old(chars[..]), rs)
      decreases i
    {
      var j := SwapIndex(rs[i], i);
      ghost var before := chars[..];
      chars[i], chars[j] := chars[j], chars[i];
      assert chars[..] == Swap(before, i, j);
      i := i - 1;
    }
  }

  /** Some retry in `attempts` yields a word different from `word`. */
  ghost predicate Scramblable(word: string, attempts: seq<seq<real>>) {
    && (forall k :: 0 <= k < |attempts| ==> DrawsFor(attempts[k], |word|))
    && (exists k :: 0 <= k < |attempts| && FisherYates(word, attempts[k]) != word)
  }

  /** `scrambled` is the shuffle of the first retry in `attempts` that changes `word`. */
  ghost predicate FirstChange(word: string, attempts: seq<seq<real>>, scrambled: string)
    requires forall k :: 0 <= k < |attempts| ==> DrawsFor(attempts[k], |word|)
  {
    exists k :: 0 <= k < |attempts| && scrambled == FisherYates(word, attempts[k]) &&
      forall m :: 0 <= m < k ==> FisherYates(word, attempts[m]) == word
  }

  /** A first try that gives the word back leaves the changing retry among the others. */
  lemma RetryScramblable(word: string, attempts: seq<seq<real>>)
    requires Scramblable(word, attempts) && FisherYates(word, attempts[0]) == word
    ensures Scramblable(word, attempts[1..])
  {
    var m :| 0 <= m < |attempts| && FisherYates(word, attempts[m]) != word;
    assert attempts[1..][m - 1] == attempts[m];
  }

  /** The first change among the other retries is the first change of all. */
  lemma RetryFirstChange(word: string, attempts: seq<seq<real>>, scrambled: string)
    requires Scramblable(word, attempts) && FisherYates(word, attempts[0]) == word
    requires Scramblable(word, attempts[1..]) && FirstChange(word, attempts[1..], scrambled)
    ensures FirstChange(word, attempts, scrambled)
  {
    var rest := attempts[1..];
    var k :| 0 <= k < |rest| && scrambled == FisherYates(word, rest[k]) &&
      forall m :: 0 <= m < k ==> FisherYates(word, rest[m]) == word;
    forall m | 0 <= m < k + 1 ensures FisherYates(word, attempts[m]) == word {
      if m > 0 {
        assert attempts[m] == rest[m - 1];
      }
    }
    assert attempts[k + 1] == rest[k];
  }

  /**
   * `scrambleWord`: shuffle the letters with the first draws; if that gives
   * the word back, start over with the remaining draws. The result is the
   * first shuffle that differs, so it has the word's letters and is not the
   * word.
   */
  method ScrambleWord(word: string, attempts: seq<seq<real>>) returns (scrambled: string)
    requires Scramblable(word, attempts)
    ensures scrambled != word
    ensures multiset(scrambled) == multiset(word)
    ensures FirstChange(word, attempts, scrambled)
    decreases |attempts|
  {
    var chars := new char[|word|](i requires 0 <= i < |word| => word[i]);
    assert chars[..] == word;
    Shuffle(chars, attempts[0]);
    scrambled := chars[..];
    if scrambled == word {
      RetryScramblable(word, attempts);
      scrambled := ScrambleWord(word, attempts[1..]);
      RetryFirstChange(word, attempts, scrambled);
    } else {
      ShuffleDownKeepsLetters(word, attempts[0], |word| - 1);
      assert scrambled == FisherYates(word, attempts[0]);
    }
  }

  /** A word of one repeated letter is never changed by a shuffle, so the retry never ends. */
  lemma UniformWordNeverChanges(word: string, rs: seq<real>)
    requires DrawsFor(rs, |word|)
    requires forall i, j :: 0 <= i < j < |word| ==> word[i] == word[j]
    ensures FisherYates(word, rs) == word
  {
    var t := FisherYates(word, rs);
    ShuffleDownKeepsLetters(word, rs, |word| - 1);
    forall i | 0 <= i < |t| ensures t[i] == word[i] {
      assert t[i] in multiset(word);
      var k :| 0 <= k < |word| && word[k] == t[i];
      assert word[k] == word[i] by {
        if k < i {
          assert word[k] == word[i];
        } else if i < k {
          assert word[i] == word[k];
        }
      }
    }
  }

  /** A draw that makes position `i` swap with position `j <= i`. */
  lemma DrawPicks(i: nat, j: nat)
    requires j <= i
    ensures IsDraw(j as real / (i + 1) as real)
    ensures SwapIndex(j as real / (i + 1) as real, i) == j
  {
    var n := (i + 1) as real;
    var r := j as real / n;
    assert r * n == j as real;
  }

  /** Swaps of each position with itself leave the word as it is. */
  lemma {:induction false} IdentitySwaps(s: string, rs: seq<real>, i: int, lo: nat)
    requires DrawsFor(rs, |s|) && lo <= i < |s|
    requires forall k :: lo < k <= i ==> SwapIndex(rs[k], k) == k
    ensures ShuffleDown(s, rs, i) == ShuffleDown(s, rs, lo)
    decreases i
  {
    if i > lo {
      assert Swap(s, i, i) == s;
      IdentitySwaps(s, rs, i - 1, lo);
    }
  }

  /** The draws that swap positions `a < b` and fix every other position. */
  function SwapOnly(n: nat, a: nat, b: nat): (rs: seq<real>)
    requires a < b < n
    ensures DrawsFor(rs, n)
    ensures forall k :: 0 < k < n && k != b ==> SwapIndex(rs[k], k) == k
    ensures SwapIndex(rs[b], b) == a
  {
    var rs := seq(n, k requires 0 <= k < n => if k == b then a as real / (b + 1) as real else k as real / (k + 1) as real);
    forall k | 0 <= k < n ensures IsDraw(rs[k]) && (0 < k ==> SwapIndex(rs[k], k) == if k == b then a else k) {
      if k == b { DrawPicks(b, a); } else { DrawPicks(k, k); }
    }
    rs
  }

  /** A word with two different letters has draws whose shuffle changes it. */
  lemma ScrambleExists(word: string, a: nat, b: nat)
    requires a < b < |word| && word[a] != word[b]
    ensures exists rs :: DrawsFor(rs, |word|) && FisherYates(word, rs) != word
  {
    var n := |word|;
    var rs := SwapOnly(n, a, b);
    IdentitySwaps(word, rs, n - 1, b);
    var t := Swap(word, b, a);
    assert ShuffleDown(word, rs, b) == ShuffleDown(t, rs, b - 1);
    IdentitySwaps(t, rs, b - 1, 0);
    assert FisherYates(word, rs) == t;
    assert t[b] != word[b];
  }

  /** Each listed word can be scrambled: its first two letters differ. */
  lemma ListedWordsScramble(k: nat)
    requires k < |Words|
    ensures exists rs :: DrawsFor(rs, |Words[k].original|) && FisherYates(Words[k].original, rs) != Words[k].original
  {
    var w := Words[k].original;
    assert |w| >= 2 && w[0] != w[1];
    ScrambleExists(w, 0, 1);
  }

  /** `toUpperCase` on ASCII letters. */
  function UpperChar(c: char): (u: char)
    ensures !('a' <= u <= 'z')
    ensures 'a' <= c <= 'z' ==> u as int == c as int - 32
    ensures !('a' <= c <= 'z') ==> u == c
  {
    if 'a' <= c <= 'z' then (c as int - 32) as char else c
  }

  function ToUpper(s: string): (u: string)
    ensures |u| == |s| && forall i :: 0 <= i < |s| ==> u[i] == UpperChar(s[i])
  {
    seq(|s|, i requires 0 <= i < |s| => UpperChar(s[i]))
  }

  /** Upper-casing twice is upper-casing once, so the stored guess compares as typed. */
  lemma ToUpperIdempotent(s: string)
    ensures ToUpper(ToUpper(s)) == ToUpper(s)
  {
  }

  /** The word a draw picks is one of the listed words. */
  lemma PickedWordIsListed(pick: real)
    requires IsDraw(pick)
    ensures Banner.PickWord(pick) in Words
  {
  }

  /** Every listed word is picked by some draw. */
  lemma EveryWordCanBePicked(k: nat)
    requires k < |Words|
    ensures exists pick :: IsDraw(pick) && Banner.PickWord(pick) == Words[k]
  {
    var pick := k as real / |Words| as real;
    DrawPicks(|Words| - 1, k);
    assert IsDraw(pick) && Banner.PickWord(pick) == Words[k];
  }

  datatype CurrentWord = CurrentWord(original: string, scrambled: string, hint: string)

  /** The countdown a round starts with. */
  const RoundSeconds: nat := 30

  class Banner {
    var isPlaying: bool
    var currentWord: Option<CurrentWord>
    var userGuess: string
    var score: nat
    var timeLeft: nat
    var showHint: bool
    /** The position in `Words` of the word on show. */
    ghost var wordIndex: nat

    /** The word on show is a listed word, scrambled into a different arrangement of its letters. */
    ghost predicate Valid()
      reads this
    {
      && timeLeft <= RoundSeconds
      && (currentWord.Some? ==>
        var w := currentWord.value;
        && wordIndex < |Words|
        && w.original == Words[wordIndex].original && w.hint == Words[wordIndex].hint
        && w.scrambled != w.original
        && multiset(w.scrambled) == multiset(w.original))
    }

    constructor ()
      ensures Valid()
      ensures !isPlaying && currentWord.None? && userGuess == "" && score == 0
      ensures timeLeft == RoundSeconds && !showHint
    {
      isPlaying := false;
      currentWord := None;
      userGuess := "";
      score := 0;
      timeLeft := RoundSeconds;
      showHint := false;
      wordIndex := 0;
    }

    /** The word the draw `pick` selects. */
    static function PickWord(pick: real): WordEntry
      requires IsDraw(pick)
    {
      Words[RandomIndex(pick, |Words|)]
    }

    /** `selectRandomWord`: a new scrambled word, the guess cleared and the hint hidden. */
    method SelectRandomWord(pick: real, attempts: seq<seq<real>>)
      requires Valid() && IsDraw(pick) && Scramblable(PickWord(pick).original, attempts)
      modifies this
      ensures Valid()
      ensures currentWord.Some? && currentWord.value.original == PickWord(pick).original
      ensures currentWord.value.hint == PickWord(pick).hint
      ensures userGuess == "" && !showHint
      ensures isPlaying == old(isPlaying) && score == old(score) && timeLeft == old(timeLeft)
    {
      var randomWord := PickWord(pick);
      var scrambled := ScrambleWord(randomWord.original, attempts);
      wordIndex := RandomIndex(pick, |Words|);
      currentWord := Some(CurrentWord(randomWord.original, scrambled, randomWord.hint));
      userGuess := "";
      showHint := false;
    }

    /** `startGame`: a new word, score 0, a full countdown, the hint hidden and the guess cleared. */
    method StartGame(pick: real, attempts: seq<seq<real>>)
      requires Valid() && IsDraw(pick) && Scramblable(PickWord(pick).original, attempts)
      modifies this
      ensures Valid()
      ensures currentWord.Some? && currentWord.value.original == PickWord(pick).original
      ensures currentWord.value.hint == PickWord(pick).hint
      ensures isPlaying && score == 0 && timeLeft == RoundSeconds && !showHint && userGuess == ""
    {
      SelectRandomWord(pick, attempts);
      isPlaying := true;
      score := 0;
      timeLeft := RoundSeconds;
      showHint := false;
      userGuess := "";
    }

    /** `endGame`. */
    method EndGame()
      requires Valid()
      modifies this`isPlaying
      ensures Valid() && !isPlaying
    {
      isPlaying := false;
    }

    /**
     * The countdown effect: while playing, a second passes if time is left;
     * at zero the game ends.
     */
    method TimerEffect()
      requires Valid()
      modifies this
      ensures Valid()
      ensures old(isPlaying) && old(timeLeft) > 0 ==> isPlaying && timeLeft == old(timeLeft) - 1
      ensures old(isPlaying) && old(timeLeft) == 0 ==> !isPlaying && timeLeft == 0
      ensures !old(isPlaying) ==> !isPlaying && timeLeft == old(timeLeft)
      ensures score == old(score) && currentWord == old(currentWord) && userGuess == old(userGuess)
      ensures showHint == old(showHint)
    {
      if isPlaying && timeLeft > 0 {
        timeLeft := timeLeft - 1;
      } else if isPlaying && timeLeft == 0 {
        EndGame();
      }
    }

    /** `handleInputChange`: the field stores what was typed, upper-cased. */
    method HandleInputChange(typed: string)
      requires Valid()
      modifies this`userGuess
      ensures Valid() && userGuess == ToUpper(typed)
    {
      userGuess := ToUpper(typed);
    }

    /**
     * `checkAnswer`: a correct answer scores a point and brings the next
     * word; a wrong one costs three seconds, never going below zero.
     */
    method CheckAnswer(pick: real, attempts: seq<seq<real>>)
      requires Valid() && IsDraw(pick) && Scramblable(PickWord(pick).original, attempts)
      modifies this
      ensures Valid() && isPlaying == old(isPlaying)
      ensures old(currentWord).None? ==>
        score == old(score) && timeLeft == old(timeLeft) && currentWord.None?
        && userGuess == old(userGuess) && showHint == old(showHint)
      ensures old(currentWord).Some? && ToUpper(old(userGuess)) == old(currentWord).value.original ==>
        && score == old(score) + 1 && timeLeft == old(timeLeft)
        && currentWord.Some? && currentWord.value.original == PickWord(pick).original
        && currentWord.value.hint == PickWord(pick).hint
        && userGuess == "" && !showHint
      ensures old(currentWord).Some? && ToUpper(old(userGuess)) != old(currentWord).value.original ==>
        && score == old(score) && timeLeft == Max(0, old(timeLeft) - 3)
        && currentWord == old(currentWord) && userGuess == old(userGuess) && showHint == old(showHint)
    {
      if currentWord.None? {
        return;
      }
      if ToUpper(userGuess) == currentWord.value.original {
        score := score + 1;
        SelectRandomWord(pick, attempts);
      } else {
        timeLeft := Max(0, timeLeft - 3);
      }
    }

    /** `displayHint`: show the hint at a cost of two seconds, never going below zero. */
    method DisplayHint()
      requires Valid()
      modifies this
      ensures Valid()
      ensures showHint && timeLeft == Max(0, old(timeLeft) - 2)
      ensures isPlaying == old(isPlaying) && score == old(score) && currentWord == old(currentWord)
      ensures userGuess == old(userGuess)
    {
      showHint := true;
      timeLeft := Max(0, timeLeft - 2);
    }
  }
}
