// The Chance deck: sixteen cards, shuffled once, then drawn cyclically. A card
// either moves the player, charges a tax or fine, pays a receipt, or hands out
// a get-out-of-jail-free card.
module Chance {
  import opened Board
  import opened Pieces
  import opened Cards
  import opened Extensions

  /** The Chance cards, in the order the engine's switch lists them. */
  datatype ChanceCard =
    | MovementAdvanceToGo
    | MovementGoToJail
    | MovementAdvanceToStCharlesPlace
    | MovementTripToPennsylvaniaRailroad
    | MovementAdvanceToIllnoisAvenue
    | MovementAdvanceToBoardwalk
    | MovementGoBackThreeSpaces
    | TaxesFinesGeneralRepairs
    | TaxesFinesStreetRepairs
    | TaxesFinesSchoolFees
    | TaxesFinesDrunkInChargeFine
    | TaxesFinesSpeedingFine
    | ReceiptsBuildingLoanMatures
    | ReceiptsCrosswordCompetition
    | ReceiptsBankDividend
    | OtherGetOutOfJailFree

  /** The family a card belongs to, as the prefix of its name says. */
  datatype ChanceKind = Movement | TaxesFines | Receipts | Other

  function Kind(card: ChanceCard): ChanceKind {
    match card
    case MovementAdvanceToGo | MovementGoToJail | MovementAdvanceToStCharlesPlace
      | MovementTripToPennsylvaniaRailroad | MovementAdvanceToIllnoisAvenue
      | MovementAdvanceToBoardwalk | MovementGoBackThreeSpaces => Movement
    case TaxesFinesGeneralRepairs | TaxesFinesStreetRepairs | TaxesFinesSchoolFees
      | TaxesFinesDrunkInChargeFine | TaxesFinesSpeedingFine => TaxesFines
    case ReceiptsBuildingLoanMatures | ReceiptsCrosswordCompetition | ReceiptsBankDividend => Receipts
    case OtherGetOutOfJailFree => Other
  }

  /** The fresh deck: every value of the card enumeration, in declaration order. */
  const ChanceCards: seq<ChanceCard> := [
    MovementAdvanceToGo, MovementGoToJail, MovementAdvanceToStCharlesPlace,
    MovementTripToPennsylvaniaRailroad, MovementAdvanceToIllnoisAvenue,
    MovementAdvanceToBoardwalk, MovementGoBackThreeSpaces,
    TaxesFinesGeneralRepairs, TaxesFinesStreetRepairs, TaxesFinesSchoolFees,
    TaxesFinesDrunkInChargeFine, TaxesFinesSpeedingFine,
    ReceiptsBuildingLoanMatures, ReceiptsCrosswordCompetition, ReceiptsBankDividend,
    OtherGetOutOfJailFree
  ]

  /** The fresh deck holds each of the sixteen cards exactly once. */
  lemma ChanceDeckIsComplete()
    ensures |ChanceCards| == 16
    ensures forall i, j | 0 <= i < j < |ChanceCards| :: ChanceCards[i] != ChanceCards[j]
    ensures forall card: ChanceCard :: card in ChanceCards
  {
    forall card: ChanceCard ensures card in ChanceCards {
      match card
      case MovementAdvanceToGo => assert ChanceCards[0] == card;
      case MovementGoToJail => assert ChanceCards[1] == card;
      case MovementAdvanceToStCharlesPlace => assert ChanceCards[2] == card;
      case MovementTripToPennsylvaniaRailroad => assert ChanceCards[3] == card;
      case MovementAdvanceToIllnoisAvenue => assert ChanceCards[4] == card;
      case MovementAdvanceToBoardwalk => assert ChanceCards[5] == card;
      case MovementGoBackThreeSpaces => assert ChanceCards[6] == card;
      case TaxesFinesGeneralRepairs => assert ChanceCards[7] == card;
      case TaxesFinesStreetRepairs => assert ChanceCards[8] == card;
      case TaxesFinesSchoolFees => assert ChanceCards[9] == card;
      case TaxesFinesDrunkInChargeFine => assert ChanceCards[10] == card;
      case TaxesFinesSpeedingFine => assert ChanceCards[11] == card;
      case ReceiptsBuildingLoanMatures => assert ChanceCards[12] == card;
      case ReceiptsCrosswordCompetition => assert ChanceCards[13] == card;
      case ReceiptsBankDividend => assert ChanceCards[14] == card;
      case OtherGetOutOfJailFree => assert ChanceCards[15] == card;
    }
  }

  /**
   * What the card does to the balance of the player who drew it, given the
   * numbers of houses and hotels that player has bought.
   */
  function ChanceBalanceChange(card: ChanceCard, housesBought: int, hotelsBought: int): int {
    match card
    case TaxesFinesGeneralRepairs => -(housesBought * 25 + hotelsBought * 100)
    case TaxesFinesStreetRepairs => -(housesBought * 40 + hotelsBought * 115)
    case TaxesFinesSchoolFees => -150
    case TaxesFinesDrunkInChargeFine => -20
    case TaxesFinesSpeedingFine => -15
    case ReceiptsBuildingLoanMatures => 150
    case ReceiptsCrosswordCompetition => 100
    case ReceiptsBankDividend => 50
    case _ => 0
  }

  /** The call on an undefined Player member that the card makes, if any. */
  function ChanceRequest(card: ChanceCard): Request {
    match card
    case MovementAdvanceToGo => MoveToPositionByName(Go)
    case MovementAdvanceToStCharlesPlace => MoveToPositionByName(StCharlesPlace)
    case MovementTripToPennsylvaniaRailroad => MoveToPositionByName(PennsylvaniaRailroad)
    case MovementAdvanceToIllnoisAvenue => MoveToPositionByName(IllnoisAvenue)
    case MovementAdvanceToBoardwalk => MoveToPositionByName(Boardwalk)
    case MovementGoBackThreeSpaces => MoveBackward(3)
    case OtherGetOutOfJailFree => RecieveGetOutOfJailFreeCard
    case _ => NoRequest
  }

  /**
   * The family of a card decides how it touches the balance: movement and
   * other cards never do, receipts always credit, and taxes and fines never
   * credit (the repair bills are zero for a player without buildings).
   */
  lemma ChanceKindDecidesBalance(card: ChanceCard, housesBought: nat, hotelsBought: nat)
    ensures Kind(card) in {Movement, Other} ==> ChanceBalanceChange(card, housesBought, hotelsBought) == 0
    ensures Kind(card) == Receipts <==> ChanceBalanceChange(card, housesBought, hotelsBought) > 0
    ensures Kind(card) == TaxesFines ==> ChanceBalanceChange(card, housesBought, hotelsBought) <= 0
    ensures Kind(card) == TaxesFines && housesBought + hotelsBought > 0 ==>
      ChanceBalanceChange(card, housesBought, hotelsBought) < 0
  {
  }

  /**
   * Every card either changes the balance or returns a request, except the
   * go-to-jail card, which imprisons the player instead.
   */
  lemma ChanceCardsAllActOnThePlayer(card: ChanceCard, housesBought: nat, hotelsBought: nat)
    requires housesBought + hotelsBought > 0
    ensures card == MovementGoToJail <==>
      ChanceBalanceChange(card, housesBought, hotelsBought) == 0 && ChanceRequest(card) == NoRequest
  {
  }

  class ChanceEngine {
    var cardIndexPointer: nat
    var cards: array?<ChanceCard>
    /** How many cards have been drawn since the engine was created. */
    ghost var drawn: nat

    /** The cursor has moved once per draw from the top of the deck. */
    ghost predicate Valid()
      reads this`cardIndexPointer, this`drawn
    {
      cardIndexPointer == PointerAfter(drawn, |ChanceCards|)
    }

    /** `Initialise` has run: the deck holds the sixteen cards. */
    predicate Ready()
      reads this`cards
    {
      cards != null && cards.Length == |ChanceCards|
    }

    /** A new engine points at the top of a deck that is not built yet. */
    constructor ()
      ensures Valid() && cardIndexPointer == 0 && drawn == 0 && cards == null
    {
      cardIndexPointer := 0;
      cards := null;
      drawn := 0;
    }

    /**
     * Builds the deck from every card value and shuffles it with the supplied
     * draws; the cursor stays where it was.
     */
    method Initialise(draws: seq<nat>)
      requires ValidDraws(draws, |ChanceCards|)
      modifies this`cards
      ensures Ready() && fresh(cards)
      ensures cards[..] == Shuffled(ChanceCards, draws)
    {
      cards := ShuffledDeck(ChanceCards, draws);
    }

    /**
     * Draws the card under the cursor, applies it to the active player and
     * advances the cursor. The card is the one at `drawn % 16` in the
     * shuffled deck; the player's balance changes by the card's amount, only
     * the go-to-jail card imprisons, and a call on an undefined Player member
     * is returned as the request.
     */
    method Simulate(activePlayer: Player, housesBought: int, hotelsBought: int) returns (request: Request)
      requires Valid() && Ready()
      modifies this`cardIndexPointer, this`drawn
      modifies activePlayer`balance, activePlayer`imprisoned, activePlayer`positionIndex
      ensures Valid() && Ready() && cards == old(cards)
      ensures drawn == old(drawn) + 1
      ensures cardIndexPointer == Cards.MovePointer(old(cardIndexPointer), |ChanceCards|)
      ensures var card := cards[old(drawn) % |ChanceCards|];
        && card == old(cards[cardIndexPointer])
        && activePlayer.balance == old(activePlayer.balance) + ChanceBalanceChange(card, housesBought, hotelsBought)
        && request == ChanceRequest(card)
        && (card == MovementGoToJail ==> activePlayer.imprisoned && activePlayer.positionIndex == JailIndex)
        && (card != MovementGoToJail ==>
              activePlayer.imprisoned == old(activePlayer.imprisoned) &&
              activePlayer.positionIndex == old(activePlayer.positionIndex))
    {
      PointerAfterIsDrawsModCount(drawn, |ChanceCards|);
      var currentCard := cards[cardIndexPointer];
      request := ApplyCard(currentCard, activePlayer, housesBought, hotelsBought);
      MovePointer();
    }

    /**
     * The switch on the drawn card: the player's balance changes by exactly
     * the card's amount, only the go-to-jail card imprisons, and the request
     * is the card's call on an undefined Player member.
     */
    method ApplyCard(currentCard: ChanceCard, activePlayer: Player, housesBought: int, hotelsBought: int)
      returns (request: Request)
      modifies activePlayer`balance, activePlayer`imprisoned, activePlayer`positionIndex
      ensures activePlayer.balance == old(activePlayer.balance) + ChanceBalanceChange(currentCard, housesBought, hotelsBought)
      ensures request == ChanceRequest(currentCard)
      ensures currentCard == MovementGoToJail ==> activePlayer.imprisoned && activePlayer.positionIndex == JailIndex
      ensures currentCard != MovementGoToJail ==>
        activePlayer.imprisoned == old(activePlayer.imprisoned) &&
        activePlayer.positionIndex == old(activePlayer.positionIndex)
    {
      request := NoRequest;
      match currentCard {
      case MovementAdvanceToGo =>
        request := MoveToPositionByName(Go);
      case MovementGoToJail =>
        activePlayer.Imprison();
      case MovementAdvanceToStCharlesPlace =>
        request := MoveToPositionByName(StCharlesPlace);
      case MovementTripToPennsylvaniaRailroad =>
        request := MoveToPositionByName(PennsylvaniaRailroad);
      case MovementAdvanceToIllnoisAvenue =>
        request := MoveToPositionByName(IllnoisAvenue);
      case MovementAdvanceToBoardwalk =>
        request := MoveToPositionByName(Boardwalk);
      case MovementGoBackThreeSpaces =>
        request := MoveBackward(3);
      case TaxesFinesGeneralRepairs =>
        var repairsOnHouses := housesBought * 25;
        var repairsOnHotels := hotelsBought * 100;
        activePlayer.DecreaseBalance(repairsOnHouses + repairsOnHotels);
      case TaxesFinesStreetRepairs =>
        var streetRepairsOnHouses := housesBought * 40;
        var streetRepairsOnHotels := hotelsBought * 115;
        activePlayer.DecreaseBalance(streetRepairsOnHouses + streetRepairsOnHotels);
      case TaxesFinesSchoolFees =>
        activePlayer.DecreaseBalance(150);
      case TaxesFinesDrunkInChargeFine =>
        activePlayer.DecreaseBalance(20);
      case TaxesFinesSpeedingFine =>
        activePlayer.DecreaseBalance(15);
      case ReceiptsBuildingLoanMatures =>
        activePlayer.IncreaseBalance(150);
      case ReceiptsCrosswordCompetition =>
        activePlayer.IncreaseBalance(100);
      case ReceiptsBankDividend =>
        activePlayer.IncreaseBalance(50);
      case OtherGetOutOfJailFree =>
        request := RecieveGetOutOfJailFreeCard;
      }
    }

    /** Advances the cursor to the next card, wrapping to the top after the last. */
    method MovePointer()
      requires Valid() && Ready()
      modifies this`cardIndexPointer, this`drawn
      ensures Valid() && drawn == old(drawn) + 1
      ensures cardIndexPointer == Cards.MovePointer(old(cardIndexPointer), cards.Length)
    {
      cardIndexPointer := (cardIndexPointer + 1) % cards.Length;
      drawn := drawn + 1;
    }
  }
}
