// Turn order, shared by both revisions of the engine. Players are seated in
// the order they were created and are identified by their seat (their Id);
// `alive[i]` is whether the player in seat i is still in the game. Dead
// players are skipped but never leave the seating.
module Seating {

  /** The number of living players. */
  function CountAlive(alive: seq<bool>): (c: nat)
    ensures c <= |alive|
  {
    if alive == [] then 0
    else CountAlive(alive[..|alive| - 1]) + (if alive[|alive| - 1] then 1 else 0)
  }

  /** The game goes on while more than one player is alive. */
  predicate GameInProgress(alive: seq<bool>) {
    CountAlive(alive) > 1
  }

  /** Two different seats hold living players. */
  ghost predicate TwoAlive(alive: seq<bool>) {
    exists i, j | 0 <= i < |alive| && 0 <= j < |alive| :: i != j && alive[i] && alive[j]
  }

  /** Some seat holds a living player. */
  ghost predicate SomeAlive(alive: seq<bool>) {
    exists i | 0 <= i < |alive| :: alive[i]
  }

  lemma {:induction false} CountAliveZero(alive: seq<bool>)
    ensures CountAlive(alive) == 0 <==> !SomeAlive(alive)
  {
    if alive != [] {
      var init := alive[..|alive| - 1];
      CountAliveZero(init);
      if SomeAlive(init) {
        var i :| 0 <= i < |init| && init[i];
        assert alive[i];
      }
      if SomeAlive(alive) && !alive[|alive| - 1] {
        var i :| 0 <= i < |alive| && alive[i];
        assert init[i];
      }
    }
  }

  /** `GameInProgress` holds exactly when two different seats hold living players. */
  lemma {:induction false} GameInProgressIffTwoAlive(alive: seq<bool>)
    ensures GameInProgress(alive) <==> TwoAlive(alive)
  {
    if alive != [] {
      var n := |alive| - 1;
      var init := alive[..n];
      GameInProgressIffTwoAlive(init);
      CountAliveZero(init);
      if TwoAlive(init) {
        var i, j :| 0 <= i < |init| && 0 <= j < |init| && i != j && init[i] && init[j];
        assert alive[i] && alive[j];
      }
      if alive[n] && SomeAlive(init) {
        var i :| 0 <= i < |init| && init[i];
        assert alive[i] && i != n;
      }
      if TwoAlive(alive) {
        var i, j :| 0 <= i < |alive| && 0 <= j < |alive| && i != j && alive[i] && alive[j];
        if i == n {
          assert init[j];
        } else if j == n {
          assert init[i];
        } else {
          assert init[i] && init[j];
        }
      }
    }
  }

  ghost predicate StrictlyIncreasing(s: seq<nat>) {
    forall k1, k2 | 0 <= k1 < k2 < |s| :: s[k1] < s[k2]
  }

  /**
   * The seats below n that stay in the rotation: the living ones and the
   * current one, in seating order.
   */
  function Remaining(alive: seq<bool>, current: nat, n: nat): (rem: seq<nat>)
    requires n <= |alive|
    ensures forall k | 0 <= k < |rem| :: rem[k] < n && (alive[rem[k]] || rem[k] == current)
    ensures forall i | 0 <= i < n && (alive[i] || i == current) :: i in rem
    ensures StrictlyIncreasing(rem)
  {
    if n == 0 then []
    else Remaining(alive, current, n - 1) + (if alive[n - 1] || n - 1 == current then [n - 1] else [])
  }

  /** The position of the first occurrence of x in s. */
  function IndexOf(s: seq<nat>, x: nat): (k: nat)
    requires x in s
    ensures k < |s| && s[k] == x
    ensures forall j | 0 <= j < k :: s[j] != x
  {
    if s[0] == x then 0 else 1 + IndexOf(s[1..], x)
  }

  /**
   * The seat of the next player: among the remaining seats, the one after the
   * current seat, wrapping around to the first.
   */
  function NextSeat(alive: seq<bool>, current: nat): nat
    requires current < |alive|
  {
    var rem := Remaining(alive, current, |alive|);
    rem[(IndexOf(rem, current) + 1) % |rem|]
  }

  /** Seat i lies strictly after `from` and strictly before `to` in cyclic seating order. */
  predicate StrictlyBetween(from: nat, to: nat, i: nat) {
    if from < to then from < i < to else from < i || i < to
  }

  /**
   * Seat r is the first living seat after `current` in cyclic order, or
   * `current` itself when no other seat holds a living player.
   */
  ghost predicate IsNextLiving(alive: seq<bool>, current: nat, r: nat) {
    && r < |alive|
    && (r == current || alive[r])
    && forall i | 0 <= i < |alive| && StrictlyBetween(current, r, i) :: !alive[i]
  }

  /** The index after k in a cyclic list of m entries. */
  lemma WrapIndex(k: nat, m: nat)
    requires k < m
    ensures (k + 1) % m == if k + 1 < m then k + 1 else 0
  {
  }

  /** No entry of an increasing list lies strictly between two neighbours. */
  lemma NotBetweenNeighbours(s: seq<nat>, j: nat, x: nat)
    requires StrictlyIncreasing(s) && j + 1 < |s| && s[j] < x < s[j + 1]
    ensures x !in s
  {
  }

  /** No entry of an increasing list lies below its first or above its last entry. */
  lemma NotOutside(s: seq<nat>, x: nat)
    requires StrictlyIncreasing(s) && |s| > 0 && (x < s[0] || x > s[|s| - 1])
    ensures x !in s
  {
  }

  /** `NextSeat` picks the first living seat after the current one, cyclically. */
  lemma NextSeatIsNextLiving(alive: seq<bool>, current: nat)
    requires current < |alive|
    ensures IsNextLiving(alive, current, NextSeat(alive, current))
  {
    var rem := Remaining(alive, current, |alive|);
    var k := IndexOf(rem, current);
    var m := |rem|;
    WrapIndex(k, m);
    var r := NextSeat(alive, current);
    if k + 1 < m {
      assert r == rem[k + 1];
      forall i | 0 <= i < |alive| && StrictlyBetween(current, r, i)
        ensures !alive[i]
      {
        NotBetweenNeighbours(rem, k, i);
      }
    } else {
      assert r == rem[0];
      forall i | 0 <= i < |alive| && StrictlyBetween(current, r, i)
        ensures !alive[i]
      {
        NotOutside(rem, i);
      }
    }
  }

  /** No seat other than r satisfies `IsNextLiving`: the choice is unique. */
  lemma NextLivingIsUnique(alive: seq<bool>, current: nat, r1: nat, r2: nat)
    requires IsNextLiving(alive, current, r1) && IsNextLiving(alive, current, r2)
    ensures r1 == r2
  {
  }

  /** While the game is in progress the next player is another, living, player. */
  lemma InProgressNextIsAnotherLivingPlayer(alive: seq<bool>, current: nat)
    requires current < |alive| && GameInProgress(alive)
    ensures NextSeat(alive, current) != current && alive[NextSeat(alive, current)]
  {
    NextSeatIsNextLiving(alive, current);
    GameInProgressIffTwoAlive(alive);
    var i, j :| 0 <= i < |alive| && 0 <= j < |alive| && i != j && alive[i] && alive[j];
    var other := if i != current then i else j;
    assert StrictlyBetween(current, current, other);
  }

  /** A living current player is never followed by a dead one. */
  lemma NextOfLivingIsLiving(alive: seq<bool>, current: nat)
    requires current < |alive| && alive[current]
    ensures alive[NextSeat(alive, current)]
  {
    NextSeatIsNextLiving(alive, current);
  }

  /**
   * When a seat other than the current one holds a living player, the next
   * player is another, living, player, whether the current one is alive or not.
   */
  lemma NextIsLivingWhenAnotherLives(alive: seq<bool>, current: nat, other: nat)
    requires current < |alive| && other < |alive| && other != current && alive[other]
    ensures NextSeat(alive, current) != current && alive[NextSeat(alive, current)]
  {
    NextSeatIsNextLiving(alive, current);
    assert StrictlyBetween(current, current, other);
  }
}
