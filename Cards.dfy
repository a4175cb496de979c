// What the two card engines share: the cursor that walks the shuffled deck
// cyclically, and the calls a card makes on the player that the Player class
// does not define.
module Cards {
  import opened Board
  import opened Pieces
  import opened Extensions

  /**
   * A call that a card makes on a Player member this revision of Player does
   * not define. The model does not guess what such a member does: the card
   * engine returns the call, with its arguments, to its caller.
   */
  datatype Request =
    | NoRequest
      /** `MoveToPositionByName(name)` on the active player. */
    | MoveToPositionByName(name: Name)
      /** `MoveBackward(spaces)` on the active player. */
    | MoveBackward(spaces: int)
      /** `RecieveGetOutOfJailFreeCard()` on the active player. */
    | RecieveGetOutOfJailFreeCard
      /** `debtor.PayDebt(creditor, amount)` for each debtor, in order. */
    | PayDebt(debtors: seq<Player>, creditor: Player, amount: int)

  /** The cursor after one draw: the next card, wrapping to the top after the last one. */
  function MovePointer(pointer: nat, count: nat): (next: nat)
    requires count > 0
    ensures next < count
    ensures pointer + 1 < count ==> next == pointer + 1
    ensures pointer + 1 == count ==> next == 0
  {
    (pointer + 1) % count
  }

  /** The cursor of a deck of `count` cards after `draws` draws from the top. */
  function PointerAfter(draws: nat, count: nat): (p: nat)
    requires count > 0
    ensures p < count
  {
    if draws == 0 then 0 else MovePointer(PointerAfter(draws - 1, count), count)
  }

  /** The n-th draw (counting from 0) from a fresh deck reads card `n % count`. */
  lemma {:induction false} PointerAfterIsDrawsModCount(draws: nat, count: nat)
    requires count > 0
    ensures PointerAfter(draws, count) == draws % count
  {
    if draws > 0 {
      PointerAfterIsDrawsModCount(draws - 1, count);
      NextRemainder(draws - 1, count);
    }
  }

  /** Moving the cursor from the remainder of x gives the remainder of x + 1. */
  lemma NextRemainder(x: nat, count: nat)
    requires count > 0
    ensures MovePointer(x % count, count) == (x + 1) % count
  {
    var q, r := x / count, x % count;
    if r + 1 < count {
      DivisionIsUnique(x + 1, count, q, r + 1);
    } else {
      MulStep(q, count);
      DivisionIsUnique(x + 1, count, q + 1, 0);
    }
  }

  /** A new array holding the cards of the list, shuffled in place with the supplied draws. */
  method ShuffledDeck<T>(list: seq<T>, draws: seq<nat>) returns (deck: array<T>)
    requires ValidDraws(draws, |list|)
    ensures fresh(deck) && deck.Length == |list|
    ensures deck[..] == Shuffled(list, draws)
  {
    deck := new T[|list|](i requires 0 <= i < |list| => list[i]);
    assert deck[..] == list;
    Shuffle(deck, draws);
  }

  lemma MulStep(d: int, c: int)
    ensures (d + 1) * c == d * c + c
  {
  }

  lemma {:induction false} MulAtLeast(d: nat, c: nat)
    requires d >= 1
    ensures d * c >= c
  {
    if d > 1 {
      MulAtLeast(d - 1, c);
      MulStep(d - 1, c);
    }
  }

  /** A remainder is determined by any quotient/remainder pair of the division. */
  lemma DivisionIsUnique(x: nat, count: nat, q: int, r: int)
    requires count > 0 && 0 <= r < count && x == q * count + r
    ensures x % count == r
  {
    var q', r' := x / count, x % count;
    assert x == q' * count + r';
    if q > q' {
      MulAtLeast(q - q', count);
    } else if q < q' {
      MulAtLeast(q' - q, count);
    }
  }
}
