// The Community Chest deck: sixteen cards, shuffled once, then drawn
// cyclically. Besides moves, fines and receipts it has the birthday card, which
// charges every other living player.
module CommunityChest {
  import opened Board
  import opened Pieces
  import opened Cards
  import opened Extensions

  /** The Community Chest cards, in the order the engine's switch lists them. */
  datatype CommunityChestCard =
    | MoveAdvanceToGo
    | MoveGoBackToMediterraneanAvenue
    | MoveGoToJail
    | TaxFinePayHospital
    | TaxFineDoctorsFee
    | TaxFineInsurancePremium
    | ReceiptBankError
    | ReceiptAnnuityMatures
    | ReceiptYouInherit
    | ReceiptSaleOfStock
    | ReceiptPreferenceSharesInterest
    | ReceiptIncomeTaxRefund
    | ReceiptBeautyContestSecondPrize
    | ReceiptItIsYourBirthday
    | OtherGetOutOfJailFree
    | OtherPayFineOrTakeChance

  /** The family a card belongs to, as the prefix of its name says. */
  datatype CommunityChestKind = Move | TaxFine | Receipt | Other

  function Kind(card: CommunityChestCard): CommunityChestKind {
    match card
    case MoveAdvanceToGo | MoveGoBackToMediterraneanAvenue | MoveGoToJail => Move
    case TaxFinePayHospital | TaxFineDoctorsFee | TaxFineInsurancePremium => TaxFine
    case ReceiptBankError | ReceiptAnnuityMatures | ReceiptYouInherit | ReceiptSaleOfStock
      | ReceiptPreferenceSharesInterest | ReceiptIncomeTaxRefund
      | ReceiptBeautyContestSecondPrize | ReceiptItIsYourBirthday => Receipt
    case OtherGetOutOfJailFree | OtherPayFineOrTakeChance => Other
  }

  /** The fresh deck: every value of the card enumeration, in declaration order. */
  const CommunityChestCards: seq<CommunityChestCard> := [
    MoveAdvanceToGo, MoveGoBackToMediterraneanAvenue, MoveGoToJail,
    TaxFinePayHospital, TaxFineDoctorsFee, TaxFineInsurancePremium,
    ReceiptBankError, ReceiptAnnuityMatures, ReceiptYouInherit, ReceiptSaleOfStock,
    ReceiptPreferenceSharesInterest, ReceiptIncomeTaxRefund,
    ReceiptBeautyContestSecondPrize, ReceiptItIsYourBirthday,
    OtherGetOutOfJailFree, OtherPayFineOrTakeChance
  ]

  /** The fresh deck holds each of the sixteen cards exactly once. */
  lemma CommunityChestDeckIsComplete()
    ensures |CommunityChestCards| == 16
    ensures forall i, j | 0 <= i < j < |CommunityChestCards| :: CommunityChestCards[i] != CommunityChestCards[j]
    ensures forall card: CommunityChestCard :: card in CommunityChestCards
  {
    forall card: CommunityChestCard ensures card in CommunityChestCards {
      match card
      case MoveAdvanceToGo => assert CommunityChestCards[0] == card;
      case MoveGoBackToMediterraneanAvenue => assert CommunityChestCards[1] == card;
      case MoveGoToJail => assert CommunityChestCards[2] == card;
      case TaxFinePayHospital => assert CommunityChestCards[3] == card;
      case TaxFineDoctorsFee => assert CommunityChestCards[4] == card;
      case TaxFineInsurancePremium => assert CommunityChestCards[5] == card;
      case ReceiptBankError => assert CommunityChestCards[6] == card;
      case ReceiptAnnuityMatures => assert CommunityChestCards[7] == card;
      case ReceiptYouInherit => assert CommunityChestCards[8] == card;
      case ReceiptSaleOfStock => assert CommunityChestCards[9] == card;
      case ReceiptPreferenceSharesInterest => assert CommunityChestCards[10] == card;
      case ReceiptIncomeTaxRefund => assert CommunityChestCards[11] == card;
      case ReceiptBeautyContestSecondPrize => assert CommunityChestCards[12] == card;
      case ReceiptItIsYourBirthday => assert CommunityChestCards[13] == card;
      case OtherGetOutOfJailFree => assert CommunityChestCards[14] == card;
      case OtherPayFineOrTakeChance => assert CommunityChestCards[15] == card;
    }
  }

  /**
   * What the card does to the balance of the player who drew it. The annuity
   * card credits 200 although its name says 100; the birthday card leaves the
   * drawer's balance to the `PayDebt` calls it requests.
   */
  function CommunityChestBalanceChange(card: CommunityChestCard): int {
    match card
    case MoveAdvanceToGo => 200
    case TaxFinePayHospital => -100
    case TaxFineDoctorsFee => -50
    case TaxFineInsurancePremium => -50
    case ReceiptBankError => 200
    case ReceiptAnnuityMatures => 200
    case ReceiptYouInherit => 100
    case ReceiptSaleOfStock => 50
    case ReceiptPreferenceSharesInterest => 25
    case ReceiptIncomeTaxRefund => 20
    case ReceiptBeautyContestSecondPrize => 10
    case OtherPayFineOrTakeChance => -10
    case _ => 0
  }

  /**
   * The players the birthday card charges, in seating order: every living
   * player other than the one who drew it.
   */
  function BirthdayDebtors(players: seq<Player>, activeId: int): (debtors: seq<Player>)
    reads players
    ensures |debtors| <= |players|
    ensures forall d | d in debtors :: d in players && d.playerIsAlive && d.id != activeId
    ensures forall p | p in players && p.playerIsAlive && p.id != activeId :: p in debtors
  {
    if players == [] then []
    else
      var last := players[|players| - 1];
      BirthdayDebtors(players[..|players| - 1], activeId) +
        (if last.playerIsAlive && last.id != activeId then [last] else [])
  }

  /**
   * When every player sits at the index that is its Id, the debtors come in
   * strictly increasing order of Id: in seating order, and none twice.
   */
  lemma {:induction false} BirthdayDebtorsInSeatingOrder(players: seq<Player>, activeId: int)
    requires forall k | 0 <= k < |players| :: players[k].id == k
    ensures forall i, j | 0 <= i < j < |BirthdayDebtors(players, activeId)| ::
      BirthdayDebtors(players, activeId)[i].id < BirthdayDebtors(players, activeId)[j].id
  {
    if players != [] {
      var prefix := players[..|players| - 1];
      BirthdayDebtorsInSeatingOrder(prefix, activeId);
      var earlier := BirthdayDebtors(prefix, activeId);
      forall d | d in earlier
        ensures d.id < |players| - 1
      {
        var k :| 0 <= k < |prefix| && prefix[k] == d;
        assert prefix[k] == players[k];
      }
      var debtors := BirthdayDebtors(players, activeId);
      assert debtors[..|earlier|] == earlier;
      forall i, j | 0 <= i < j < |debtors|
        ensures debtors[i].id < debtors[j].id
      {
        if j >= |earlier| {
          assert debtors[j] == players[|players| - 1] && debtors[i] == earlier[i] && earlier[i] in earlier;
        } else {
          assert debtors[i] == earlier[i] && debtors[j] == earlier[j];
        }
      }
    }
  }

  /** The call on an undefined Player member that the card makes, if any. */
  function CommunityChestRequest(card: CommunityChestCard, players: seq<Player>, activePlayer: Player): Request
    reads players
  {
    match card
    case MoveAdvanceToGo => MoveToPositionByName(Go)
    case MoveGoBackToMediterraneanAvenue => MoveToPositionByName(MediterraneanAvenue)
    case ReceiptItIsYourBirthday => PayDebt(BirthdayDebtors(players, activePlayer.id), activePlayer, 10)
    case OtherGetOutOfJailFree => RecieveGetOutOfJailFreeCard
    case _ => NoRequest
  }

  /**
   * The family of a card decides the sign of its effect on the balance: fines
   * always debit, receipts other than the birthday always credit, and of the
   * moves only advance-to-Go pays (200). No card moves the balance by more
   * than 200.
   */
  lemma CommunityChestKindDecidesBalance(card: CommunityChestCard)
    ensures Kind(card) == TaxFine ==> CommunityChestBalanceChange(card) < 0
    ensures Kind(card) == Receipt ==>
      (CommunityChestBalanceChange(card) > 0 <==> card != ReceiptItIsYourBirthday)
    ensures Kind(card) == Move ==>
      (CommunityChestBalanceChange(card) != 0 <==> card == MoveAdvanceToGo)
    ensures -200 <= CommunityChestBalanceChange(card) <= 200
  {
  }

  class CommunityChestEngine {
    var cards: array?<CommunityChestCard>
    var cardIndexPointer: nat
    /** How many cards have been drawn since the engine was created. */
    ghost var drawn: nat

    /** The cursor has moved once per draw from the top of the deck. */
    ghost predicate Valid()
      reads this`cardIndexPointer, this`drawn
    {
      cardIndexPointer == PointerAfter(drawn, |CommunityChestCards|)
    }

    /** `Initialise` has run: the deck holds the sixteen cards. */
    predicate Ready()
      reads this
    {
      cards != null && cards.Length == |CommunityChestCards|
    }

    /** A new engine points at the top of a deck that is not built yet. */
    constructor ()
      ensures Valid() && cardIndexPointer == 0 && drawn == 0 && cards == null
    {
      cards := null;
      cardIndexPointer := 0;
      drawn := 0;
    }

    /**
     * Builds the deck from every card value and shuffles it with the supplied
     * draws; the cursor stays where it was.
     */
    method Initialise(draws: seq<nat>)
      requires ValidDraws(draws, |CommunityChestCards|)
      modifies this`cards
      ensures Ready() && fresh(cards)
      ensures cards[..] == Shuffled(CommunityChestCards, draws)
    {
      cards := ShuffledDeck(CommunityChestCards, draws);
    }

    /**
     * Draws the card under the cursor, applies it to the active player and
     * advances the cursor. The card is the one at `drawn % 16` in the
     * shuffled deck; the player's balance changes by the card's amount, only
     * the go-to-jail card imprisons, and a call on an undefined Player member
     * (for the birthday card, one `PayDebt` per other living player) is
     * returned as the request.
     */
    method Simulate(activePlayer: Player, players: seq<Player>) returns (request: Request)
      requires Valid() && Ready()
      modifies this`cardIndexPointer, this`drawn
      modifies activePlayer`balance, activePlayer`imprisoned, activePlayer`positionIndex
      ensures Valid() && Ready() && cards == old(cards)
      ensures drawn == old(drawn) + 1
      ensures cardIndexPointer == Cards.MovePointer(old(cardIndexPointer), |CommunityChestCards|)
      ensures var card := cards[old(drawn) % |CommunityChestCards|];
        && card == old(cards[cardIndexPointer])
        && activePlayer.balance == old(activePlayer.balance) + CommunityChestBalanceChange(card)
        && request == old(CommunityChestRequest(card, players, activePlayer))
        && (card == MoveGoToJail ==> activePlayer.imprisoned && activePlayer.positionIndex == JailIndex)
        && (card != MoveGoToJail ==>
              activePlayer.imprisoned == old(activePlayer.imprisoned) &&
              activePlayer.positionIndex == old(activePlayer.positionIndex))
    {
      PointerAfterIsDrawsModCount(drawn, |CommunityChestCards|);
      var currentCard := cards[cardIndexPointer];
      request := ApplyCard(currentCard, activePlayer, players);
      MovePointer();
    }

    /**
     * The switch on the drawn card: the player's balance changes by exactly
     * the card's amount, only the go-to-jail card imprisons, and the request
     * is the card's call on an undefined Player member.
     */
    method ApplyCard(currentCard: CommunityChestCard, activePlayer: Player, players: seq<Player>)
      returns (request: Request)
      modifies activePlayer`balance, activePlayer`imprisoned, activePlayer`positionIndex
      ensures activePlayer.balance == old(activePlayer.balance) + CommunityChestBalanceChange(currentCard)
      ensures request == old(CommunityChestRequest(currentCard, players, activePlayer))
      ensures currentCard == MoveGoToJail ==> activePlayer.imprisoned && activePlayer.positionIndex == JailIndex
      ensures currentCard != MoveGoToJail ==>
        activePlayer.imprisoned == old(activePlayer.imprisoned) &&
        activePlayer.positionIndex == old(activePlayer.positionIndex)
    {
      request := NoRequest;
      match currentCard {
      case MoveAdvanceToGo =>
        request := MoveToPositionByName(Go);
        activePlayer.IncreaseBalance(200);
      case MoveGoBackToMediterraneanAvenue =>
        request := MoveToPositionByName(MediterraneanAvenue);
      case MoveGoToJail =>
        activePlayer.Imprison();
      case TaxFinePayHospital =>
        activePlayer.DecreaseBalance(100);
      case TaxFineDoctorsFee =>
        activePlayer.DecreaseBalance(50);
      case TaxFineInsurancePremium =>
        activePlayer.DecreaseBalance(50);
      case ReceiptBankError =>
        activePlayer.IncreaseBalance(200);
      case ReceiptAnnuityMatures =>
        activePlayer.IncreaseBalance(200);
      case ReceiptYouInherit =>
        activePlayer.IncreaseBalance(100);
      case ReceiptSaleOfStock =>
        activePlayer.IncreaseBalance(50);
      case ReceiptPreferenceSharesInterest =>
        activePlayer.IncreaseBalance(25);
      case ReceiptIncomeTaxRefund =>
        activePlayer.IncreaseBalance(20);
      case ReceiptBeautyContestSecondPrize =>
        activePlayer.IncreaseBalance(10);
      case ReceiptItIsYourBirthday =>
        var debtors := CollectBirthdayDebtors(players, activePlayer);
        request := PayDebt(debtors, activePlayer, 10);
      case OtherGetOutOfJailFree =>
        request := RecieveGetOutOfJailFreeCard;
      case OtherPayFineOrTakeChance =>
        activePlayer.DecreaseBalance(10);
      }
    }

    /**
     * The birthday card's loop: walks the players in seating order and picks
     * each living player other than the active one, who owes the active
     * player 10.
     */
    method CollectBirthdayDebtors(players: seq<Player>, activePlayer: Player) returns (debtors: seq<Player>)
      ensures debtors == BirthdayDebtors(players, activePlayer.id)
    {
      debtors := [];
      for i := 0 to |players|
        invariant debtors == BirthdayDebtors(players[..i], activePlayer.id)
      {
        var player := players[i];
        assert players[..i + 1][..i] == players[..i];
        if player.playerIsAlive && player.id != activePlayer.id {
          debtors := debtors + [player];
        }
      }
      assert players[..|players|] == players;
    }

    /** Advances the cursor to the next card, wrapping to the top after the last. */
    method MovePointer()
      requires Valid() && Ready()
      modifies this`cardIndexPointer, this`drawn
      ensures Valid() && drawn == old(drawn) + 1
      ensures cardIndexPointer == Cards.MovePointer(old(cardIndexPointer), cards.Length)
    {
      cardIndexPointer := (cardIndexPointer + 1) % cards.Length;
      drawn := drawn + 1;
    }
  }
}
