/**
 * The dice roller: ten animation ticks of throw-away values, then a final
 * throw whose values, total and a history entry are recorded; the history
 * keeps the ten newest throws, newest first. The 100 ms interval is the
 * explicit step `RollTick`.
 */
module DiceRoller {
  import opened Randomness

  /** The die types offered: D4, D6, D8, D10, D12, D20. */
  predicate IsDieType(n: nat) {
    n == 4 || n == 6 || n == 8 || n == 10 || n == 12 || n == 20
  }

  /** Ticks of the rolling animation; the final throw happens on the last one. */
  const MaxRolls: nat := 10

  /** Entries kept by the history. */
  const HistoryLimit: nat := 10

  /** `Math.floor(r * dieType) + 1` for each draw. */
  function Throw(draws: seq<real>, dieType: nat): (values: seq<nat>)
    requires AllDraws(draws) && dieType > 0
    ensures |values| == |draws|
    ensures forall i :: 0 <= i < |values| ==> 1 <= values[i] <= dieType
  {
    seq(|draws|, i requires 0 <= i < |draws| => RandomIndex(draws[i], dieType) + 1)
  }

  /** The `reduce` that adds up a throw. */
  function Sum(values: seq<nat>): (total: nat)
    ensures values == [] ==> total == 0
    ensures forall i :: 0 <= i < |values| ==> values[i] <= total
  {
    if values == [] then 0 else Sum(values[..|values| - 1]) + values[|values| - 1]
  }

  /** A throw of `n` dice with `sides` sides totals between `n` and `n * sides`. */
  lemma {:induction false} SumBounds(values: seq<nat>, sides: nat)
    requires forall i :: 0 <= i < |values| ==> 1 <= values[i] <= sides
    ensures |values| <= Sum(values) <= |values| * sides
  {
    if values != [] {
      SumBounds(values[..|values| - 1], sides);
    }
  }

  datatype Roll = Roll(dice: nat, dieType: nat, results: seq<nat>, total: nat)

  /** Put `entry` in front of at most the nine newest earlier entries. */
  function Record(history: seq<Roll>, entry: Roll): (h: seq<Roll>)
    ensures |h| == if |history| < HistoryLimit then |history| + 1 else HistoryLimit
    ensures h[0] == entry
    ensures forall i :: 1 <= i < |h| ==> h[i] == history[i - 1]
  {
    [entry] + (if |history| <= HistoryLimit - 1 then history else history[..HistoryLimit - 1])
  }

  /** However many throws are recorded, the history never holds more than ten. */
  lemma {:induction false} HistoryStaysBounded(history: seq<Roll>, entries: seq<Roll>)
    requires |history| <= HistoryLimit
    ensures |RecordAll(history, entries)| <= HistoryLimit
    ensures entries != [] ==> RecordAll(history, entries)[0] == entries[|entries| - 1]
  {
    if entries != [] {
      HistoryStaysBounded(history, entries[..|entries| - 1]);
    }
  }

  /** The history after recording `entries` in order. */
  function RecordAll(history: seq<Roll>, entries: seq<Roll>): seq<Roll> {
    if entries == [] then history else Record(RecordAll(history, entries[..|entries| - 1]), entries[|entries| - 1])
  }

  datatype Dot = TopLeft | TopRight | MiddleLeft | Center | MiddleRight | BottomLeft | BottomRight

  /** The dot half a turn away. */
  function Opposite(d: Dot): Dot {
    match d
    case TopLeft => BottomRight
    case TopRight => BottomLeft
    case MiddleLeft => MiddleRight
    case Center => Center
    case MiddleRight => MiddleLeft
    case BottomLeft => TopRight
    case BottomRight => TopLeft
  }

  /**
   * The dots of a D6 face: `value` distinct dots for 1 to 6 and none for
   * any other value; the centre dot exactly on odd faces, and the pattern
   * unchanged by half a turn.
   */
  function D6Face(value: int): (dots: seq<Dot>)
    ensures 1 <= value <= 6 ==> |dots| == value
    ensures !(1 <= value <= 6) ==> dots == []
    ensures forall i, j :: 0 <= i < j < |dots| ==> dots[i] != dots[j]
    ensures (Center in dots) <==> 1 <= value <= 6 && value % 2 == 1
    ensures forall d :: d in dots ==> Opposite(d) in dots
  {
    match value
    case 1 => [Center]
    case 2 => [TopRight, BottomLeft]
    case 3 => [TopRight, Center, BottomLeft]
    case 4 => [TopLeft, TopRight, BottomLeft, BottomRight]
    case 5 => [TopLeft, TopRight, Center, BottomLeft, BottomRight]
    case 6 => [TopLeft, TopRight, MiddleLeft, MiddleRight, BottomLeft, BottomRight]
    case _ => []
  }

  class Roller {
    var numberOfDice: nat
    var dieType: nat
    var results: seq<nat>
    var total: nat
    var isRolling: bool
    var rollHistory: seq<Roll>
    /** `rollCount` of the running interval. */
    var rollCount: nat
    /** The number of dice and die type captured when the interval was started. */
    var rollingDice: nat
    var rollingType: nat

    ghost predicate Valid()
      reads this
    {
      && 1 <= numberOfDice <= 5 && IsDieType(dieType)
      && |rollHistory| <= HistoryLimit
      && total == Sum(results)
      && 1 <= rollingDice <= 5 && IsDieType(rollingType)
      && (isRolling ==> rollCount < MaxRolls)
    }

    constructor ()
      ensures Valid()
      ensures numberOfDice == 1 && dieType == 6 && results == [] && total == 0
      ensures !isRolling && rollHistory == []
    {
      numberOfDice := 1;
      dieType := 6;
      results := [];
      total := 0;
      isRolling := false;
      rollHistory := [];
      rollCount := 0;
      rollingDice := 1;
      rollingType := 6;
    }

    method HandleNumberOfDiceChange(n: nat)
      requires Valid() && 1 <= n <= 5
      modifies this`numberOfDice
      ensures Valid() && numberOfDice == n
    {
      numberOfDice := n;
    }

    method HandleDieTypeChange(t: nat)
      requires Valid() && IsDieType(t)
      modifies this`dieType
      ensures Valid() && dieType == t
    {
      dieType := t;
    }

    /** `rollDice`: ignored while rolling; otherwise start the animation interval. */
    method RollDice()
      requires Valid()
      modifies this
      ensures Valid() && isRolling
      ensures old(isRolling) ==> rollCount == old(rollCount) && rollingDice == old(rollingDice) && rollingType == old(rollingType)
      ensures !old(isRolling) ==> rollCount == 0 && rollingDice == numberOfDice && rollingType == dieType
      ensures numberOfDice == old(numberOfDice) && dieType == old(dieType)
      ensures results == old(results) && total == old(total) && rollHistory == old(rollHistory)
    {
      if isRolling {
        return;
      }
      isRolling := true;
      rollCount := 0;
      rollingDice := numberOfDice;
      rollingType := dieType;
    }

    /**
     * One tick of the interval: show a throw-away throw; on the tenth tick
     * throw for real, stop rolling and record the throw at the head of the
     * history.
     */
    method RollTick(draws: seq<real>, finalDraws: seq<real>)
      requires Valid() && isRolling
      requires |draws| == rollingDice && AllDraws(draws)
      requires |finalDraws| == rollingDice && AllDraws(finalDraws)
      modifies this
      ensures Valid()
      ensures rollCount == old(rollCount) + 1
      ensures isRolling <==> rollCount < MaxRolls
      ensures isRolling ==> results == Throw(draws, rollingType) && rollHistory == old(rollHistory)
      ensures !isRolling ==>
        && results == Throw(finalDraws, rollingType)
        && rollHistory == Record(old(rollHistory), Roll(rollingDice, rollingType, results, total))
      ensures |results| == rollingDice && total == Sum(results)
      ensures forall i :: 0 <= i < |results| ==> 1 <= results[i] <= rollingType
      ensures rollingDice <= total <= rollingDice * rollingType
      ensures numberOfDice == old(numberOfDice) && dieType == old(dieType)
      ensures rollingDice == old(rollingDice) && rollingType == old(rollingType)
    {
      var tempResults := Throw(draws, rollingType);
      results := tempResults;
      total := Sum(tempResults);
      rollCount := rollCount + 1;
      if rollCount >= MaxRolls {
        var finalResults := Throw(finalDraws, rollingType);
        var finalTotal := Sum(finalResults);
        results := finalResults;
        total := finalTotal;
        isRolling := false;
        rollHistory := Record(rollHistory, Roll(rollingDice, rollingType, finalResults, finalTotal));
      }
      SumBounds(results, rollingType);
    }

    /** `clearHistory`. */
    method ClearHistory()
      requires Valid()
      modifies this`rollHistory
      ensures Valid() && rollHistory == []
    {
      rollHistory := [];
    }
  }
}
