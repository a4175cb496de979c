// A roll of two dice. The random source is replaced by the die values the
// caller supplies; `Random.Next(1, 6)` has an exclusive upper bound, so each
// supplied value lies in 1..5.
module Dice {

  /** The values `Random.Next(1, 6)` can return. */
  predicate IsDieValue(v: int) {
    1 <= v < 6
  }

  class DiceRoll {
    var dieValue1: int
    var dieValue2: int

    /** A roll that has not been thrown yet holds the default values. */
    constructor ()
      ensures dieValue1 == 0 && dieValue2 == 0
    {
      dieValue1, dieValue2 := 0, 0;
    }

    /** Both dice show a value the random source can produce. */
    predicate Thrown()
      reads this
    {
      IsDieValue(dieValue1) && IsDieValue(dieValue2)
    }

    /** Throws both dice (their values supplied) and returns this same object. */
    method Roll(v1: int, v2: int) returns (r: DiceRoll)
      requires IsDieValue(v1) && IsDieValue(v2)
      modifies this
      ensures r == this
      ensures dieValue1 == v1 && dieValue2 == v2
      ensures Thrown()
    {
      dieValue1 := v1;
      dieValue2 := v2;
      r := this;
    }

    /** The two dice are equal. */
    predicate IsADouble()
      reads this
    {
      dieValue1 == dieValue2
    }

    /** The number of spaces the roll moves a player. */
    function TotalValue(): (t: int)
      reads this
      ensures Thrown() ==> 2 <= t <= 10
      ensures IsADouble() ==> t % 2 == 0
      ensures IsADouble() ==> t == 2 * dieValue1
    {
      dieValue1 + dieValue2
    }
  }
}
