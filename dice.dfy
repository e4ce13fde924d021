/**
 * The `roll_dice` tool offered to the conversational agent (main.py:19-35).
 *
 * `random.randint` is not modelled as a source of randomness: every die reads one raw
 * draw from the parameter `draws`, and `RandInt` folds that draw into the die's range.
 * `RollDiceReachesEveryOutcome` shows that this loses nothing: every sequence of faces
 * the interpreter could produce is the result for some choice of draws.
 */
module Dice {
  import opened Wrappers

  /** The `ValueError` raised for a non-positive argument. */
  datatype DiceError = ValueError(message: string)

  const NonPositiveMessage: string := "Both number of dice and sides must be positive integers."

  /** `random.randint(lo, hi)`: a value between `lo` and `hi`, both ends included. */
  function RandInt(lo: int, hi: int, raw: nat): (r: int)
    requires lo <= hi
    ensures lo <= r <= hi
  {
    lo + raw % (hi - lo + 1)
  }

  /** Every value of the range is drawn by some raw draw. */
  lemma RandIntReaches(lo: int, hi: int, v: int)
    requires lo <= v <= hi
    ensures RandInt(lo, hi, v - lo) == v
  {
  }

  /** The faces of `n` dice; die `i` reads `draws(i)`. */
  function Faces(n: nat, numSides: int, draws: nat -> nat): (rolls: seq<int>)
    requires numSides > 0
    ensures |rolls| == n
    ensures forall k :: 0 <= k < n ==> rolls[k] == RandInt(1, numSides, draws(k))
  {
    seq(n, i requires 0 <= i < n => RandInt(1, numSides, draws(i)))
  }

  /** The rolls `roll_dice(numDice, numSides)` returns; die `i` reads `draws(i)`. */
  function RollDice(numDice: int, numSides: int, draws: nat -> nat): (r: Result<seq<int>, DiceError>)
    ensures r.Err? <==> numDice <= 0 || numSides <= 0
    ensures r.Err? ==> r.error == ValueError(NonPositiveMessage)
    ensures r.Ok? ==> |r.value| == numDice
    ensures r.Ok? ==> forall k :: 0 <= k < |r.value| ==> 1 <= r.value[k] <= numSides
  {
    if numDice <= 0 || numSides <= 0 then
      Err(ValueError(NonPositiveMessage))
    else
      Ok(Faces(numDice, numSides, draws))
  }

  /** Valid arguments can yield any sequence of `numDice` faces between 1 and `numSides`. */
  lemma RollDiceReachesEveryOutcome(numDice: int, numSides: int, rolls: seq<int>)
    requires numDice > 0 && numSides > 0
    requires |rolls| == numDice
    requires forall k :: 0 <= k < |rolls| ==> 1 <= rolls[k] <= numSides
    ensures exists draws: nat -> nat :: RollDice(numDice, numSides, draws) == Ok(rolls)
  {
    var draws: nat -> nat := (i: nat) => if i < |rolls| then rolls[i] - 1 else 0;
    var faces := Faces(numDice, numSides, draws);
    forall k | 0 <= k < numDice
      ensures faces[k] == rolls[k]
    {
      RandIntReaches(1, numSides, rolls[k]);
    }
    assert faces == rolls;
    assert RollDice(numDice, numSides, draws) == Ok(rolls);
  }

  /** The die at position `k` depends on its own draw alone. */
  lemma RollDiceDieReadsOwnDraw(numDice: int, numSides: int, d1: nat -> nat, d2: nat -> nat, k: nat)
    requires numDice > 0 && numSides > 0 && k < numDice
    requires d1(k) == d2(k)
    ensures RollDice(numDice, numSides, d1).value[k] == RollDice(numDice, numSides, d2).value[k]
  {
  }
}
