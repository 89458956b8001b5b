/** The dice part of the resolvers (server.js:51-64 and the `rollThreeDices`,
    `rollDice` and `getDice` resolvers at server.js:81-89).

    The random source is not modelled. Every roll in the source takes the
    floor of a uniform number in [0, 1) times a side count; the model
    receives that integer, a "draw", as an argument, and a sequence of draws
    where the source rolls several times. `InDrawRange` says which integers
    such an expression can produce, so every bound below holds for every
    outcome the source can have. */
module Dice {
  import opened Common

  /** The side count the resolvers fall back to when `numSides` is falsy:
      absent or 0. */
  const DefaultSides: Int32 := 6

  /** The integers the floor of `u * n` takes for `u` in `[0, 1)`: `0 .. n-1`
      for a positive `n`, and `n .. 0` otherwise (the product lies in
      `(n, 0]`). */
  predicate InDrawRange(n: int, k: int)
  {
    if n > 0 then 0 <= k < n else n <= k <= 0
  }

  /** Every draw of a sequence is in range for `n` sides. */
  predicate ValidDraws(n: int, draws: seq<int>)
  {
    forall i :: 0 <= i < |draws| ==> InDrawRange(n, draws[i])
  }

  /** The truthy default of server.js:85 and server.js:88: the supplied side
      count unless it is absent or 0, and 6 then. */
  function EffectiveSides(numSides: Option<Int32>): (s: Int32)
    ensures s != 0
    ensures numSides.None? || numSides == Some(0) ==> s == DefaultSides
    ensures numSides.Some? && numSides.value != 0 ==> s == numSides.value
  {
    match numSides
    case None => DefaultSides
    case Some(n) => if n == 0 then DefaultSides else n
  }

  /** The `RandomDice` class: its side count is set by the constructor and
      never changed, so a die is a value. */
  datatype RandomDice = RandomDice(numSides: Int32) {

    /** `rollOnce` (server.js:57-59): one more than the draw `k`. */
    function RollOnce(k: int): (r: int)
      requires InDrawRange(numSides, k)
      ensures numSides >= 1 ==> 1 <= r <= numSides
      ensures numSides <= 0 ==> numSides + 1 <= r <= 1
    {
      1 + k
    }

    /** `roll` (server.js:61-63): an array of `numRolls` slots, each filled
        by one `rollOnce`, in index order, consuming `draws[i]` for slot `i`.
        Allocating the array throws a RangeError for a negative length. */
    function Roll(numRolls: Int32, draws: seq<int>): (r: Result<seq<int>>)
      requires numRolls >= 0 ==> |draws| == numRolls
      requires ValidDraws(numSides, draws)
      ensures r.Err? <==> numRolls < 0
      ensures r.Err? ==> r.error == InvalidArrayLength
      ensures r.Ok? ==> |r.value| == numRolls
      ensures r.Ok? ==> forall i :: 0 <= i < |r.value| ==> r.value[i] == RollOnce(draws[i])
      ensures r.Ok? && numSides >= 1 ==> forall v :: v in r.value ==> 1 <= v <= numSides
    {
      if numRolls < 0 then
        Err(InvalidArrayLength)
      else
        Ok(seq(numRolls, i requires 0 <= i < numRolls => RollOnce(draws[i])))
    }
  }

  /** `getDice({numSides})`: a die with the defaulted side count. */
  function GetDice(numSides: Option<Int32>): (d: RandomDice)
    ensures d.numSides == EffectiveSides(numSides)
  {
    RandomDice(EffectiveSides(numSides))
  }

  /** `rollDice` (server.js:84-86): the same mapping as `RandomDice.roll`,
      over the defaulted side count, so it is written as that roll. */
  function RollDice(numDice: Int32, numSides: Option<Int32>, draws: seq<int>): (r: Result<seq<int>>)
    requires numDice >= 0 ==> |draws| == numDice
    requires ValidDraws(EffectiveSides(numSides), draws)
    ensures r.Err? <==> numDice < 0
    ensures r.Err? ==> r.error == InvalidArrayLength
    ensures r.Ok? ==> |r.value| == numDice
    ensures r.Ok? && EffectiveSides(numSides) >= 1 ==>
      forall v :: v in r.value ==> 1 <= v <= EffectiveSides(numSides)
    ensures r.Ok? && (numSides.None? || numSides == Some(0)) ==>
      forall v :: v in r.value ==> 1 <= v <= 6
  {
    GetDice(numSides).Roll(numDice, draws)
  }

  /** `rollThreeDices` (server.js:81-83): a roll of a six-sided die for each
      of three slots. */
  function RollThreeDices(draws: seq<int>): (r: seq<int>)
    requires |draws| == 3 && ValidDraws(DefaultSides, draws)
    ensures |r| == 3
    ensures forall i :: 0 <= i < |r| ==> 1 <= r[i] <= 6
  {
    RandomDice(DefaultSides).Roll(3, draws).value
  }

  /** Every face of a die with at least one side is a possible outcome of
      `rollOnce`, so `[1, numSides]` is exactly its range. */
  lemma RollOnceReachesEveryFace(d: RandomDice, v: int)
    requires d.numSides >= 1 && 1 <= v <= d.numSides
    ensures exists k :: InDrawRange(d.numSides, k) && d.RollOnce(k) == v
  {
    assert InDrawRange(d.numSides, v - 1) && d.RollOnce(v - 1) == v;
  }

  /** Every sequence of faces of the right length is a possible outcome of
      `roll`: the length and bound guarantees of `Roll` are all it promises. */
  lemma RollReachesEveryOutcome(d: RandomDice, rolls: seq<int>)
    requires d.numSides >= 1 && |rolls| < 0x8000_0000
    requires forall i :: 0 <= i < |rolls| ==> 1 <= rolls[i] <= d.numSides
    ensures exists draws :: |draws| == |rolls| && ValidDraws(d.numSides, draws)
                            && d.Roll(|rolls|, draws) == Ok(rolls)
  {
    var draws := seq(|rolls|, i requires 0 <= i < |rolls| => rolls[i] - 1);
    assert ValidDraws(d.numSides, draws);
    var r := d.Roll(|rolls|, draws);
    assert r.value == rolls;
  }

  /** `getDice()` and `getDice({numSides: 0})` both behave as `getDice({numSides: 6})`. */
  lemma GetDiceDefaults()
    ensures GetDice(None) == GetDice(Some(6)) == GetDice(Some(0))
    ensures GetDice(None).numSides == 6
  {
  }

  /** A supplied non-zero side count is kept, negative ones included. */
  lemma GetDiceKeepsNonZero(n: Int32)
    requires n != 0
    ensures GetDice(Some(n)).numSides == n
  {
  }
}
