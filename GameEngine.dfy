// The turn engine of the current revision: one turn of the active player
// (roll, resolve the space landed on, build, pass the turn) and the handlers
// it dispatches to. The board comes in as a list of forty positions, the
// random source as die values, and the card engines' calls on undefined
// Player members come out as requests.
module Engine {
  import opened Board
  import opened Dice
  import opened Pieces
  import opened Seating
  import opened Cards
  import Chance
  import CommunityChest

  /** No element occurs twice. */
  ghost predicate Distinct<T>(s: seq<T>) {
    forall i, j | 0 <= i < j < |s| :: s[i] != s[j]
  }

  /** `xs` is `ys` with some elements left out and the rest kept in their order. */
  ghost predicate Subsequence<T>(xs: seq<T>, ys: seq<T>)
    decreases |ys|
  {
    || xs == []
    || (&& ys != []
        && (|| Subsequence(xs, ys[..|ys| - 1])
            || (xs[|xs| - 1] == ys[|ys| - 1] && Subsequence(xs[..|xs| - 1], ys[..|ys| - 1]))))
  }

  /**
   * What the engine relies on in the board data: a property has a rent for
   * each building count 0..5 and belongs to a group, and rents are never
   * negative. A missing `group` list is the empty list here.
   */
  predicate WellFormedPosition(q: Position) {
    && (q.kind == property ==> |q.rent| == 6 && |q.group| > 0)
    && forall k | 0 <= k < |q.rent| :: q.rent[k] >= 0
  }

  /** Every player sits at the index that is its Id. */
  predicate Seated(players: seq<Player>) {
    forall i | 0 <= i < |players| :: players[i].id == i
  }

  /** The alive flag of each seat. */
  function AliveFlags(players: seq<Player>): (alive: seq<bool>)
    reads players`playerIsAlive
    ensures |alive| == |players|
    ensures forall i | 0 <= i < |players| :: alive[i] == players[i].playerIsAlive
  {
    if players == [] then []
    else AliveFlags(players[..|players| - 1]) + [players[|players| - 1].playerIsAlive]
  }

  /** A player as `CreateNew` leaves it: on Go, free, alive, with the balance and nothing else. */
  ghost predicate NewPlayer(p: Player, startingBalance: int)
    reads p
  {
    && p.balance == startingBalance && p.positionIndex == 0 && !p.imprisoned && p.playerIsAlive
    && p.rolls == [] && p.rollsInPrison == [] && p.positionsAcquired == []
  }

  /**
   * The dice throw of a turn: a prisoner throws nothing; any other player
   * records exactly one fresh roll showing the given dice.
   */
  twostate predicate ThrewDice(p: Player, v1: int, v2: int)
    reads p`rolls, p.rolls
  {
    if old(p.imprisoned) then p.rolls == old(p.rolls)
    else
      && |p.rolls| == |old(p.rolls)| + 1 && p.rolls[..|old(p.rolls)|] == old(p.rolls)
      && fresh(p.rolls[|old(p.rolls)|])
      && p.rolls[|old(p.rolls)|].dieValue1 == v1 && p.rolls[|old(p.rolls)|].dieValue2 == v2
  }

  /** Whether the player is imprisoned after its throw: it was already, or its recent rolls are all doubles. */
  twostate function ImprisonedAfterRoll(p: Player): bool
    reads p`rolls, p.rolls
  {
    old(p.imprisoned) || p.LastThreeRollsWereDoubles()
  }

  /**
   * Where the throw leaves the player: a prisoner stays put, doubles send it
   * to the Jail space, and otherwise it moves on by the total.
   */
  twostate function IndexAfterRoll(p: Player, v1: int, v2: int): int
    reads p`rolls, p.rolls
  {
    if old(p.imprisoned) then old(p.positionIndex)
    else if p.LastThreeRollsWereDoubles() then JailIndex
    else WrapOnBoard(old(p.positionIndex) + v1 + v2)
  }

  /** The result of one turn step. */
  datatype TurnOutcome =
      /** The turn ran to its end; a card drawn may have requested a call on an undefined Player member. */
    | TurnCompleted(request: Request)
      /** A card engine was asked for a card before `Initialise` built its deck: the turn ends in an exception. */
    | DeckNotInitialised

  class GameEngine {
    const chanceEngine: Chance.ChanceEngine
    const communityChestEngine: CommunityChest.CommunityChestEngine
    const players: seq<Player>
    const positions: seq<Position>
    var activePlayer: Player

    /**
     * A game of `playerCount` players seated by Id, each with the starting
     * balance, on the given board; the first player starts. The engine is
     * valid once the balance is not negative, the board is forty well-formed,
     * unowned positions without buildings and the card engines are in step.
     */
    constructor (chanceEngine: Chance.ChanceEngine, communityChestEngine: CommunityChest.CommunityChestEngine,
                 playerCount: nat, startingBalance: int, board: seq<Position>)
      requires playerCount >= 1
      ensures this.chanceEngine == chanceEngine && this.communityChestEngine == communityChestEngine
      ensures positions == board && |players| == playerCount && Seated(players)
      ensures forall p | p in players :: fresh(p) && NewPlayer(p, startingBalance)
      ensures activePlayer == players[0]
      ensures
        (&& startingBalance >= 0 && |board| == BoardSize
         && chanceEngine.Valid() && communityChestEngine.Valid()
         && forall q | q in board :: WellFormedPosition(q) && q.owner == null && q.buildingCount == 0)
        ==> Valid()
    {
      this.chanceEngine := chanceEngine;
      this.communityChestEngine := communityChestEngine;
      var prepared := PreparePlayers(playerCount, startingBalance);
      players := prepared;
      activePlayer := prepared[0];
      positions := board;
    }

    /** The players of a new game, seated by Id. */
    static method PreparePlayers(playerCount: nat, startingBalance: int) returns (players: seq<Player>)
      ensures |players| == playerCount && Seated(players)
      ensures forall p | p in players :: fresh(p) && NewPlayer(p, startingBalance)
    {
      players := [];
      for i := 0 to playerCount
        invariant |players| == i && Seated(players)
        invariant forall p | p in players :: fresh(p) && NewPlayer(p, startingBalance)
      {
        var player := new Player.CreateNew(i, startingBalance);
        players := players + [player];
      }
    }

    /** The game goes on exactly while two different players are alive. */
    static function GameInProgress(players: seq<Player>): (inProgress: bool)
      reads players`playerIsAlive
      ensures inProgress <==>
        exists i, j | 0 <= i < |players| && 0 <= j < |players| ::
          i != j && players[i].playerIsAlive && players[j].playerIsAlive
    {
      var alive := AliveFlags(players);
      GameInProgressIffTwoAlive(alive);
      Seating.GameInProgress(alive)
    }

    /** The forty board positions, each well formed. */
    predicate BoardShape() {
      |positions| == BoardSize && forall q | q in positions :: WellFormedPosition(q)
    }

    /** Every player stands on the board. */
    ghost predicate PlayersOnBoard()
      reads players`positionIndex
    {
      forall pl | pl in players :: 0 <= pl.positionIndex < BoardSize
    }

    /** Building counts stay within 0..4 and every owner is a player of the game. */
    ghost predicate PositionsConsistent()
      reads positions`buildingCount, positions`owner
    {
      forall q | q in positions :: 0 <= q.buildingCount <= 4 && (q.owner == null || q.owner in players)
    }

    /**
     * A player's acquired positions are board positions, each listed once, and
     * a living player still owns everything it lists.
     */
    ghost predicate HoldingsConsistent()
      reads players`positionsAcquired, players`playerIsAlive, positions`owner
    {
      forall pl | pl in players ::
        && (forall q | q in pl.positionsAcquired :: q in positions)
        && Distinct(pl.positionsAcquired)
        && (pl.playerIsAlive ==> forall q | q in pl.positionsAcquired :: q.owner == pl)
    }

    /** Every living player other than `p` has a balance that is not negative. */
    ghost predicate SolventBut(p: Player?)
      reads players`playerIsAlive, players`balance
    {
      forall pl | pl in players && pl != p && pl.playerIsAlive :: pl.balance >= 0
    }

    /** The shape of the game's data, whatever the balances. */
    ghost predicate Consistent()
      reads players`positionIndex, players`positionsAcquired, players`playerIsAlive
      reads positions`buildingCount, positions`owner
    {
      && BoardShape()
      && |players| >= 1 && Seated(players)
      && PlayersOnBoard() && PositionsConsistent() && HoldingsConsistent()
    }

    /** What holds between turns, dead players included: the shape, and every living player solvent. */
    ghost predicate Invariant()
      reads players`positionIndex, players`positionsAcquired, players`playerIsAlive, players`balance
      reads positions`buildingCount, positions`owner
    {
      Consistent() && SolventBut(null)
    }

    /** Between turns: the invariant, a living active player, and both card cursors in step. */
    ghost predicate Valid()
      reads this`activePlayer, players`positionIndex, players`positionsAcquired, players`playerIsAlive, players`balance
      reads positions`buildingCount, positions`owner
      reads chanceEngine`cardIndexPointer, chanceEngine`drawn
      reads communityChestEngine`cardIndexPointer, communityChestEngine`drawn
    {
      && Invariant()
      && activePlayer in players && activePlayer.playerIsAlive
      && chanceEngine.Valid() && communityChestEngine.Valid()
    }

    // What the handlers do, as relations between the state before them (`old`)
    // and after them. Where the roll that starts a turn changes a field, its
    // value after the roll is a parameter (`wasImprisoned`, `wasAt`).

    /** No player's balance, list of acquired positions or alive flag changed. */
    twostate predicate PlayersKept()
      reads players
    {
      forall pl | pl in players ::
        && pl.balance == old(pl.balance) && pl.positionsAcquired == old(pl.positionsAcquired)
        && pl.playerIsAlive == old(pl.playerIsAlive)
    }

    /** No position changed its building count or its owner. */
    twostate predicate BoardKept()
      reads positions
    {
      forall q | q in positions :: q.buildingCount == old(q.buildingCount) && q.owner == old(q.owner)
    }

    /** Neither card cursor moved. */
    twostate predicate DecksKept()
      reads chanceEngine, communityChestEngine
    {
      && chanceEngine.cardIndexPointer == old(chanceEngine.cardIndexPointer)
      && chanceEngine.drawn == old(chanceEngine.drawn)
      && communityChestEngine.cardIndexPointer == old(communityChestEngine.cardIndexPointer)
      && communityChestEngine.drawn == old(communityChestEngine.drawn)
    }

    /** The player is imprisoned as it was, on the index it was on, with the same rolls in prison. */
    twostate predicate StaysPut(p: Player, wasImprisoned: bool, wasAt: int)
      reads p
    {
      p.imprisoned == wasImprisoned && p.positionIndex == wasAt && p.rollsInPrison == old(p.rollsInPrison)
    }

    /**
     * The end of a handler that owes the bank: the player stays alive exactly
     * when its balance is not negative; if it is negative, every position the
     * player lists is razed and repossessed. No other position changes, no list
     * of acquired positions changes, and no other player's balance or alive
     * flag changes.
     */
    twostate predicate SettledWithBank(p: Player)
      reads p, players, positions, p.positionsAcquired
    {
      && p.playerIsAlive == (old(p.playerIsAlive) && p.balance >= 0)
      && (p.balance < 0 ==> forall q | q in p.positionsAcquired :: q.buildingCount == 0 && q.owner == null)
      && (forall q | q in positions && (p.balance >= 0 || q !in p.positionsAcquired) ::
            q.buildingCount == old(q.buildingCount) && q.owner == old(q.owner))
      && forall pl | pl in players ::
           && pl.positionsAcquired == old(pl.positionsAcquired)
           && (pl != p ==> pl.balance == old(pl.balance) && pl.playerIsAlive == old(pl.playerIsAlive))
    }

    /** A tax space: the balance falls by exactly its cost, then the player settles with the bank. */
    twostate predicate PaidTax(p: Player, currentPosition: Position)
      reads p, players, positions, p.positionsAcquired
    {
      p.balance == old(p.balance) - currentPosition.cost && SettledWithBank(p)
    }

    /**
     * A property space. An unowned one is acquired, without paying its price,
     * exactly when the player can afford it, and nothing else changes. On an
     * owned one the player pays the rent for its building count to the owner;
     * if its balance is then negative, every position it lists is razed and
     * passes to the owner, and the player dies. No other player's list of
     * acquired positions or alive flag changes.
     */
    twostate predicate LandedOnProperty(p: Player, currentPosition: Position)
      requires old(0 <= currentPosition.buildingCount < |currentPosition.rent|)
      requires old(currentPosition.owner == null || currentPosition.owner in players)
      reads p, players, positions, currentPosition, p.positionsAcquired
    {
      && (forall pl | pl in players && pl != p ::
            pl.positionsAcquired == old(pl.positionsAcquired) && pl.playerIsAlive == old(pl.playerIsAlive))
      && (old(currentPosition.owner) == null ==>
            && (forall pl | pl in players :: pl.balance == old(pl.balance))
            && p.playerIsAlive == old(p.playerIsAlive)
            && (forall q | q in positions :: q.buildingCount == old(q.buildingCount))
            && (forall q | q in positions && q != currentPosition :: q.owner == old(q.owner))
            && (old(p.CanAffordExpense(currentPosition.cost)) ==>
                  currentPosition.owner == p && p.positionsAcquired == old(p.positionsAcquired) + [currentPosition])
            && (!old(p.CanAffordExpense(currentPosition.cost)) ==>
                  currentPosition.owner == null && p.positionsAcquired == old(p.positionsAcquired)))
      && (old(currentPosition.owner) != null ==>
            var creditor, rent := old(currentPosition.owner), old(currentPosition.RentDue());
            && p.positionsAcquired == old(p.positionsAcquired)
            && (creditor != p ==>
                  && p.balance == old(p.balance) - rent
                  && creditor.balance == old(creditor.balance) + rent)
            && (creditor == p ==> p.balance == old(p.balance))
            && (forall pl | pl in players && pl != p && pl != creditor :: pl.balance == old(pl.balance))
            && p.playerIsAlive == (old(p.playerIsAlive) && p.balance >= 0)
            && (p.balance < 0 ==>
                  forall q | q in p.positionsAcquired :: q.buildingCount == 0 && q.owner == creditor)
            && (forall q | q in positions && (p.balance >= 0 || q !in p.positionsAcquired) ::
                  q.buildingCount == old(q.buildingCount) && q.owner == old(q.owner)))
    }

    /**
     * The Jail space, for a player that came to it imprisoned or not on index
     * `wasAt`: a prisoner rolls in prison, and the third roll there, or a
     * double, releases it and moves it on by that roll; otherwise the new
     * roll, showing the given dice, is kept; a visitor is untouched.
     */
    twostate predicate VisitedJail(p: Player, wasImprisoned: bool, wasAt: int, v1: int, v2: int)
      reads p, p.rollsInPrison
    {
      && (!wasImprisoned ==> StaysPut(p, false, wasAt))
      && (wasImprisoned && (|old(p.rollsInPrison)| + 1 == 3 || v1 == v2) ==>
            && !p.imprisoned && p.rollsInPrison == []
            && p.positionIndex == WrapOnBoard(wasAt + v1 + v2))
      && (wasImprisoned && !(|old(p.rollsInPrison)| + 1 == 3 || v1 == v2) ==>
            && p.imprisoned && p.positionIndex == wasAt
            && |p.rollsInPrison| == |old(p.rollsInPrison)| + 1
            && p.rollsInPrison[..|old(p.rollsInPrison)|] == old(p.rollsInPrison)
            && fresh(p.rollsInPrison[|old(p.rollsInPrison)|])
            && p.rollsInPrison[|old(p.rollsInPrison)|].dieValue1 == v1
            && p.rollsInPrison[|old(p.rollsInPrison)|].dieValue2 == v2)
    }

    /**
     * A Chance card was drawn: the card is the one at `drawn % 16` of the deck
     * and the cursor moved once; the balance changed by the card's amount
     * (repairs at the given house and hotel counts); only the go-to-jail card
     * moved or imprisoned the player; `request` is the card's call on an
     * undefined Player member; then the player settled with the bank.
     */
    twostate predicate DrewChanceCard(p: Player, wasImprisoned: bool, wasAt: int,
                                      housesBought: int, hotelsBought: int, new request: Request)
      reads chanceEngine, chanceEngine.cards, communityChestEngine, p, players, positions, p.positionsAcquired
    {
      && chanceEngine.Ready() && chanceEngine.drawn == old(chanceEngine.drawn) + 1
      && communityChestEngine.cardIndexPointer == old(communityChestEngine.cardIndexPointer)
      && communityChestEngine.drawn == old(communityChestEngine.drawn)
      && (var card := chanceEngine.cards[old(chanceEngine.drawn) % |Chance.ChanceCards|];
          && request == Chance.ChanceRequest(card)
          && p.balance == old(p.balance) + Chance.ChanceBalanceChange(card, housesBought, hotelsBought)
          && (card == Chance.MovementGoToJail ==> p.imprisoned && p.positionIndex == JailIndex)
          && (card != Chance.MovementGoToJail ==> p.imprisoned == wasImprisoned && p.positionIndex == wasAt))
      && p.rollsInPrison == old(p.rollsInPrison)
      && SettledWithBank(p)
    }

    /**
     * A Community Chest card was drawn: the card is the one at `drawn % 16` of
     * the deck and the cursor moved once; the balance changed by the card's
     * amount; only the go-to-jail card moved or imprisoned the player;
     * `request` is the card's call on an undefined Player member, made with
     * the players as they were; then the player settled with the bank.
     */
    twostate predicate DrewCommunityChestCard(p: Player, wasImprisoned: bool, wasAt: int, new request: Request)
      reads chanceEngine, communityChestEngine, communityChestEngine.cards, p, players, positions, p.positionsAcquired
    {
      && communityChestEngine.Ready() && communityChestEngine.drawn == old(communityChestEngine.drawn) + 1
      && chanceEngine.cardIndexPointer == old(chanceEngine.cardIndexPointer)
      && chanceEngine.drawn == old(chanceEngine.drawn)
      && (var card := communityChestEngine.cards[old(communityChestEngine.drawn) % |CommunityChest.CommunityChestCards|];
          && request == old(CommunityChest.CommunityChestRequest(card, players, p))
          && p.balance == old(p.balance) + CommunityChest.CommunityChestBalanceChange(card)
          && (card == CommunityChest.MoveGoToJail ==> p.imprisoned && p.positionIndex == JailIndex)
          && (card != CommunityChest.MoveGoToJail ==> p.imprisoned == wasImprisoned && p.positionIndex == wasAt))
      && p.rollsInPrison == old(p.rollsInPrison)
      && SettledWithBank(p)
    }

    /**
     * A Chance or Community Chest space: with the space's deck built, a card
     * was drawn from it and the turn goes on with the card's request; with
     * the deck never built, nothing changed and the turn stops.
     */
    twostate predicate CardSpaceResolved(p: Player, currentPosition: Position, wasImprisoned: bool, wasAt: int,
                                         housesBought: int, hotelsBought: int, new outcome: TurnOutcome)
      requires currentPosition.kind == chance || currentPosition.kind == communitychest
      reads chanceEngine, chanceEngine.cards, communityChestEngine, communityChestEngine.cards
      reads p, players, positions, p.positionsAcquired
    {
      var ready := if currentPosition.kind == chance then old(chanceEngine.Ready()) else old(communityChestEngine.Ready());
      && (!ready ==>
            outcome == DeckNotInitialised && PlayersKept() && BoardKept() && DecksKept() && StaysPut(p, wasImprisoned, wasAt))
      && (ready && currentPosition.kind == chance ==>
            outcome.TurnCompleted? && DrewChanceCard(p, wasImprisoned, wasAt, housesBought, hotelsBought, outcome.request))
      && (ready && currentPosition.kind == communitychest ==>
            outcome.TurnCompleted? && DrewCommunityChestCard(p, wasImprisoned, wasAt, outcome.request))
    }

    /**
     * What resolving the space `currentPosition` did to the player `p`, which
     * came to it imprisoned or not (`wasImprisoned`) on index `wasAt`, and to
     * the rest of the game. Go, railroads, utilities and free parking change
     * nothing; every other type of space does what its handler does and
     * nothing more.
     */
    twostate predicate SpaceResolved(p: Player, currentPosition: Position, wasImprisoned: bool, wasAt: int,
                                     prison1: int, prison2: int, housesBought: int, hotelsBought: int,
                                     new outcome: TurnOutcome)
      requires old(Invariant()) && currentPosition in positions
      reads chanceEngine, chanceEngine.cards, communityChestEngine, communityChestEngine.cards
      reads p, players, positions, p.positionsAcquired, p.rollsInPrison
    {
      match currentPosition.kind
      case go | railroad | utility | freeparking =>
        && outcome == TurnCompleted(NoRequest)
        && PlayersKept() && BoardKept() && DecksKept() && StaysPut(p, wasImprisoned, wasAt)
      case property =>
        && outcome == TurnCompleted(NoRequest)
        && LandedOnProperty(p, currentPosition) && DecksKept() && StaysPut(p, wasImprisoned, wasAt)
      case tax =>
        && outcome == TurnCompleted(NoRequest)
        && PaidTax(p, currentPosition) && DecksKept() && StaysPut(p, wasImprisoned, wasAt)
      case jail =>
        && outcome == TurnCompleted(NoRequest)
        && VisitedJail(p, wasImprisoned, wasAt, prison1, prison2) && PlayersKept() && BoardKept() && DecksKept()
      case gotojail =>
        && outcome == TurnCompleted(NoRequest)
        && p.imprisoned && p.positionIndex == JailIndex && p.rollsInPrison == old(p.rollsInPrison)
        && PlayersKept() && BoardKept() && DecksKept()
      case chance | communitychest =>
        CardSpaceResolved(p, currentPosition, wasImprisoned, wasAt, housesBought, hotelsBought, outcome)
    }

    /**
     * The building step for the player `p`, whose turn it was: over the
     * monopolies it had, in order, the balance and the building counts are
     * those of the reference `BalanceBefore` and `BuildsAt`, and every other
     * position keeps its buildings.
     */
    twostate predicate BuiltOnMonopolies(p: Player)
      requires old(Invariant() && activePlayer in players)
      reads p, positions
    {
      var monopolies := old(GetPositionsFormingMonopoliesForPlayer(p));
      var counts, houses := old(Counts(monopolies)), Houses(monopolies);
      && p.balance == BalanceBefore(old(p.balance), counts, houses, |monopolies|)
      && (forall j | 0 <= j < |monopolies| ::
            monopolies[j].buildingCount ==
              counts[j] + if BuildsAt(old(p.balance), counts, houses, j) then 1 else 0)
      && forall q | q in positions && q !in monopolies :: q.buildingCount == old(q.buildingCount)
    }

    /**
     * The next player: among the living players and the current one, the one
     * seated after the current player, wrapping around. That is the first
     * living player after the current one in cyclic order, or the current
     * player when nobody else is alive.
     */
    function GetNextPlayer(activePlayer: Player): (next: Player)
      reads players`playerIsAlive
      requires Seated(players) && activePlayer in players
      ensures next in players
      ensures IsNextLiving(AliveFlags(players), activePlayer.id, next.id)
      ensures next == players[NextSeat(AliveFlags(players), activePlayer.id)]
    {
      var alive := AliveFlags(players);
      NextSeatIsNextLiving(alive, activePlayer.id);
      players[NextSeat(alive, activePlayer.id)]
    }

    /** Every board position whose group is `group0` is owned by the player with that Id. */
    predicate OwnsWholeGroup(group0: int, activeId: int)
      reads positions
    {
      forall q | q in positions && |q.group| > 0 && q.group[0] == group0 ::
        q.owner != null && q.owner.id == activeId
    }

    /**
     * The positions of `acquired`, in order, that are properties whose whole
     * group the player with Id `activeId` owns. The order matters: the
     * building step spends the balance along it.
     */
    function MonopolyPositions(acquired: seq<Position>, activeId: int): (monopolies: seq<Position>)
      reads positions
      requires forall q | q in acquired && q.kind == property :: |q.group| > 0
      ensures forall q | q in monopolies ::
        q in acquired && q.kind == property && OwnsWholeGroup(q.group[0], activeId)
      ensures forall q | q in acquired && q.kind == property && OwnsWholeGroup(q.group[0], activeId) ::
        q in monopolies
      ensures Distinct(acquired) ==> Distinct(monopolies)
      ensures Subsequence(monopolies, acquired)
    {
      if acquired == [] then []
      else
        var q := acquired[|acquired| - 1];
        var earlier := MonopolyPositions(acquired[..|acquired| - 1], activeId);
        if q.kind == property && OwnsWholeGroup(q.group[0], activeId) then
          assert (earlier + [q])[..|earlier|] == earlier;
          earlier + [q]
        else
          earlier
    }

    /**
     * The monopolies the building step visits: the property-type positions
     * the engine's active player lists whose group is wholly owned by the
     * given player's Id.
     */
    function GetPositionsFormingMonopoliesForPlayer(activePlayer: Player): (monopolies: seq<Position>)
      reads this, this.activePlayer, positions
      requires BoardShape() && forall q | q in this.activePlayer.positionsAcquired :: q in positions
      ensures forall q | q in monopolies ::
        q in this.activePlayer.positionsAcquired && q.kind == property &&
        OwnsWholeGroup(q.group[0], activePlayer.id)
      ensures forall q | q in this.activePlayer.positionsAcquired && q.kind == property &&
        OwnsWholeGroup(q.group[0], activePlayer.id) :: q in monopolies
      ensures Distinct(this.activePlayer.positionsAcquired) ==> Distinct(monopolies)
      ensures Subsequence(monopolies, this.activePlayer.positionsAcquired)
    {
      MonopolyPositions(this.activePlayer.positionsAcquired, activePlayer.id)
    }

    /**
     * The building step: walks the monopolies in order and buys one house on
     * each one the player wants to build on (it can pay the house price and
     * the position has at most three buildings) and that is not full. Each
     * such position gains exactly one building and the balance falls by
     * exactly its house price; every other position keeps its buildings.
     */
    method SimulatePlayerRealEstateDecision(activePlayer: Player)
      requires Invariant() && activePlayer in players && this.activePlayer in players
      modifies activePlayer`balance, positions`buildingCount
      ensures var monopolies := old(GetPositionsFormingMonopoliesForPlayer(activePlayer));
        var counts, houses := old(Counts(monopolies)), Houses(monopolies);
        && activePlayer.balance == BalanceBefore(old(activePlayer.balance), counts, houses, |monopolies|)
        && (forall j | 0 <= j < |monopolies| ::
              monopolies[j].buildingCount ==
                counts[j] + if BuildsAt(old(activePlayer.balance), counts, houses, j) then 1 else 0)
        && forall q | q in positions && q !in monopolies :: q.buildingCount == old(q.buildingCount)
      ensures Invariant()
      ensures forall pl | pl in players :: pl.playerIsAlive == old(pl.playerIsAlive)
    {
      var monopolies := GetPositionsFormingMonopoliesForPlayer(activePlayer);
      assert Distinct(monopolies) && forall q | q in monopolies :: q in positions;
      assert forall i | 0 <= i < |monopolies| :: monopolies[i] in positions;
      BuildKeepingInvariant(activePlayer, monopolies);
    }

    /** The building step over the given monopolies, which keeps the invariant. */
    method BuildKeepingInvariant(activePlayer: Player, monopolies: seq<Position>)
      requires Invariant() && activePlayer in players
      requires Distinct(monopolies) && forall q | q in monopolies :: q in positions
      modifies activePlayer`balance, monopolies`buildingCount
      ensures var counts, houses := old(Counts(monopolies)), Houses(monopolies);
        && activePlayer.balance == BalanceBefore(old(activePlayer.balance), counts, houses, |monopolies|)
        && forall j | 0 <= j < |monopolies| ::
             monopolies[j].buildingCount ==
               counts[j] + if BuildsAt(old(activePlayer.balance), counts, houses, j) then 1 else 0
      ensures forall q | q in positions && q !in monopolies :: q.buildingCount == old(q.buildingCount)
      ensures forall pl | pl in players :: pl.playerIsAlive == old(pl.playerIsAlive)
      ensures Invariant()
    {
      ghost var balance0, counts, houses := activePlayer.balance, Counts(monopolies), Houses(monopolies);
      BuildOnMonopolies(activePlayer, monopolies, balance0, counts, houses);
      BuildingKeepsBalanceNonNegative(balance0, counts, houses, |monopolies|);
      assert forall q | q in positions :: q.owner == old(q.owner) && 0 <= q.buildingCount <= 4 by {
        forall q | q in positions ensures 0 <= q.buildingCount <= 4 {
          if q !in monopolies { assert q.buildingCount == old(q.buildingCount); }
        }
      }
      BalanceAndBuildingsKeepInvariant(activePlayer);
    }

    /**
     * The invariant survives a change that touches only one player's balance,
     * keeping it solvent when it was, and building counts, keeping them in 0..4.
     */
    twostate lemma BalanceAndBuildingsKeepInvariant(activePlayer: Player)
      requires old(Invariant())
      requires forall pl | pl in players ::
        && pl.positionIndex == old(pl.positionIndex) && pl.positionsAcquired == old(pl.positionsAcquired)
        && pl.playerIsAlive == old(pl.playerIsAlive) && (pl != activePlayer ==> pl.balance == old(pl.balance))
      requires old(activePlayer.balance) >= 0 ==> activePlayer.balance >= 0
      requires forall q | q in positions :: q.owner == old(q.owner) && 0 <= q.buildingCount <= 4
      ensures Invariant()
    {
    }

    /**
     * Bankruptcy to the bank: every position the player lists loses its
     * buildings and then its owner, the auction (which does nothing) runs on
     * each, and the player is killed. No other position changes.
     */
    method SimulateBankruptcyByBanker(activePlayer: Player)
      requires Consistent() && SolventBut(activePlayer) && activePlayer in players
      modifies positions`buildingCount, positions`owner, activePlayer`playerIsAlive
      ensures !activePlayer.playerIsAlive
      ensures forall q | q in activePlayer.positionsAcquired :: q.buildingCount == 0 && q.owner == null
      ensures forall q | q in positions && q !in activePlayer.positionsAcquired ::
        q.buildingCount == old(q.buildingCount) && q.owner == old(q.owner)
      ensures old(activePlayer.playerIsAlive) ==> Invariant()
    {
      var held := activePlayer.positionsAcquired;
      assert forall i | 0 <= i < |held| :: held[i] in positions;
      RazeAndRepossess(held);
      var propertiesToBeAuctionedImmediately := activePlayer.positionsAcquired;
      for i := 0 to |propertiesToBeAuctionedImmediately|
        modifies {}
      {
        SimulateAuction(propertiesToBeAuctionedImmediately[i]);
      }
      activePlayer.KillPlayer();
    }

    /**
     * Bankruptcy to another player: every position the payer lists loses its
     * buildings and passes to the creditor, and the payer is killed. No other
     * position changes; the creditor's list of acquired positions is not
     * extended.
     */
    method SimulateBankruptcyByPlayer(activePlayer: Player, currentPositionOwner: Player)
      requires Consistent() && SolventBut(activePlayer) && activePlayer in players && currentPositionOwner in players
      modifies positions`buildingCount, positions`owner, activePlayer`playerIsAlive
      ensures !activePlayer.playerIsAlive
      ensures forall q | q in activePlayer.positionsAcquired ::
        q.buildingCount == 0 && q.owner == currentPositionOwner
      ensures forall q | q in positions && q !in activePlayer.positionsAcquired ::
        q.buildingCount == old(q.buildingCount) && q.owner == old(q.owner)
      ensures old(activePlayer.playerIsAlive) ==> Invariant()
    {
      var held := activePlayer.positionsAcquired;
      assert forall i | 0 <= i < |held| :: held[i] in positions;
      RazeAndTransfer(held, currentPositionOwner);
      activePlayer.KillPlayer();
    }

    /** The auction of an unbought or repossessed position: it does nothing. */
    method SimulateAuction(currentPosition: Position)
    {
    }

    /**
     * A tax space: the balance falls by exactly its cost, and bankruptcy to
     * the bank follows exactly when the balance is then negative.
     */
    method SimulateLandOnTax(activePlayer: Player, currentPosition: Position)
      requires Invariant() && activePlayer in players
      modifies activePlayer`balance, positions`buildingCount, positions`owner, activePlayer`playerIsAlive
      ensures PaidTax(activePlayer, currentPosition)
      ensures old(activePlayer.playerIsAlive) ==> Invariant()
    {
      activePlayer.DecreaseBalance(currentPosition.cost);
      SettleWithBank(activePlayer);
    }

    /**
     * One pass of the game loop, which runs while the game is in progress:
     * the active player rolls (die values supplied) and moves, the space it
     * then stands on is resolved by its type, the building step runs and the
     * turn passes to the next player. Go, railroads, utilities and free
     * parking do nothing. Only the active player can die in a turn, and the
     * turn always passes to another, living, player. A card space whose deck
     * was never built ends the turn before the card is read.
     */
    method RunSimulationStep(v1: int, v2: int, prison1: int, prison2: int, housesBought: int, hotelsBought: int)
      returns (outcome: TurnOutcome)
      requires Valid() && GameInProgress(players)
      requires IsDieValue(v1) && IsDieValue(v2) && IsDieValue(prison1) && IsDieValue(prison2)
      modifies this`activePlayer, players`rolls, players`rollsInPrison, players`positionIndex, players`imprisoned
      modifies players`balance, players`positionsAcquired, players`playerIsAlive
      modifies positions`buildingCount, positions`owner
      modifies chanceEngine`cardIndexPointer, chanceEngine`drawn
      modifies communityChestEngine`cardIndexPointer, communityChestEngine`drawn
      ensures Valid()
      ensures forall pl | pl in players && pl != old(activePlayer) :: pl.playerIsAlive == old(pl.playerIsAlive)
      ensures outcome.TurnCompleted? ==>
        && activePlayer == players[NextSeat(AliveFlags(players), old(activePlayer).id)]
        && activePlayer != old(activePlayer)
      ensures outcome == DeckNotInitialised ==>
        && activePlayer == old(activePlayer)
        && var kind := positions[activePlayer.positionIndex].kind;
           (kind == chance && !chanceEngine.Ready()) || (kind == communitychest && !communityChestEngine.Ready())
    {
      ghost var other := AnotherLivingPlayer();
      outcome := MoveAndResolve(v1, v2, prison1, prison2, housesBought, hotelsBought);
      if outcome == DeckNotInitialised {
        return;
      }
      EndTurn(other);
    }

    /**
     * The first half of a turn: the active player throws the dice and moves,
     * and the space the throw leaves it on is resolved by its type. Only the
     * active player can die.
     */
    method MoveAndResolve(v1: int, v2: int, prison1: int, prison2: int, housesBought: int, hotelsBought: int)
      returns (outcome: TurnOutcome)
      requires Valid()
      requires IsDieValue(v1) && IsDieValue(v2) && IsDieValue(prison1) && IsDieValue(prison2)
      modifies activePlayer`rolls, activePlayer`rollsInPrison, activePlayer`positionIndex, activePlayer`imprisoned
      modifies players`balance, activePlayer`positionsAcquired, activePlayer`playerIsAlive
      modifies positions`buildingCount, positions`owner
      modifies chanceEngine`cardIndexPointer, chanceEngine`drawn
      modifies communityChestEngine`cardIndexPointer, communityChestEngine`drawn
      ensures Invariant() && chanceEngine.Valid() && communityChestEngine.Valid()
      ensures forall pl | pl in players && pl != activePlayer :: pl.playerIsAlive == old(pl.playerIsAlive)
      ensures ThrewDice(activePlayer, v1, v2)
      ensures 0 <= IndexAfterRoll(activePlayer, v1, v2) < BoardSize
      ensures outcome == DeckNotInitialised ==>
        && activePlayer.playerIsAlive
        && activePlayer.positionIndex == IndexAfterRoll(activePlayer, v1, v2)
        && activePlayer.imprisoned == ImprisonedAfterRoll(activePlayer)
        && var kind := positions[activePlayer.positionIndex].kind;
           (kind == chance && !chanceEngine.Ready()) || (kind == communitychest && !communityChestEngine.Ready())
    {
      RollActivePlayer(v1, v2);
      ghost var imprisonedAfterRoll, indexAfterRoll := activePlayer.imprisoned, activePlayer.positionIndex;
      var currentPosition := positions[activePlayer.positionIndex];
      outcome := ResolveSpace(activePlayer, currentPosition, prison1, prison2, housesBought, hotelsBought);
      assert ImprisonedAfterRoll(activePlayer) == imprisonedAfterRoll;
      assert IndexAfterRoll(activePlayer, v1, v2) == indexAfterRoll;
    }

    /**
     * The end of a completed turn: the building step for the player who
     * moved, then the turn passes to the next living player, who is never
     * that player while another one is alive.
     */
    method EndTurn(ghost other: Player)
      requires Invariant() && activePlayer in players
      requires chanceEngine.Valid() && communityChestEngine.Valid()
      requires other in players && other != activePlayer && other.playerIsAlive
      requires other.id < |players| && players[other.id] == other && other.id != activePlayer.id
      requires activePlayer.id < |players| && players[activePlayer.id] == activePlayer
      modifies this`activePlayer, activePlayer`balance, positions`buildingCount
      ensures Valid()
      ensures BuiltOnMonopolies(old(activePlayer))
      ensures forall pl | pl in players :: pl.playerIsAlive == old(pl.playerIsAlive)
      ensures activePlayer == players[NextSeat(AliveFlags(players), old(activePlayer).id)]
      ensures activePlayer != old(activePlayer)
    {
      SimulatePlayerRealEstateDecision(activePlayer);
      PassTurn(other);
    }

    /**
     * The active player throws the dice and moves: a prisoner stays put;
     * otherwise one roll is recorded, and the player goes to jail exactly
     * when its recent rolls are all doubles and moves on by the total
     * otherwise. It stays on the board and the game stays valid.
     */
    method RollActivePlayer(v1: int, v2: int)
      requires Valid()
      requires IsDieValue(v1) && IsDieValue(v2)
      modifies activePlayer`rolls, activePlayer`imprisoned, activePlayer`positionIndex
      ensures Valid()
      ensures ThrewDice(activePlayer, v1, v2)
      ensures activePlayer.imprisoned == ImprisonedAfterRoll(activePlayer)
      ensures activePlayer.positionIndex == IndexAfterRoll(activePlayer, v1, v2)
    {
      activePlayer.RollAndUpdatePosition(v1, v2);
    }

    /**
     * The turn passes to the next living player, who is never the player
     * whose turn it was while another one is alive.
     */
    method PassTurn(ghost other: Player)
      requires Invariant() && activePlayer in players
      requires chanceEngine.Valid() && communityChestEngine.Valid()
      requires other in players && other != activePlayer && other.playerIsAlive
      requires other.id < |players| && players[other.id] == other && other.id != activePlayer.id
      requires activePlayer.id < |players| && players[activePlayer.id] == activePlayer
      modifies this`activePlayer
      ensures Valid()
      ensures forall pl | pl in players :: pl.playerIsAlive == old(pl.playerIsAlive)
      ensures activePlayer == players[NextSeat(AliveFlags(players), old(activePlayer).id)]
      ensures activePlayer != old(activePlayer)
    {
      ghost var alive := AliveFlags(players);
      NextIsLivingWhenAnotherLives(alive, activePlayer.id, other.id);
      var next := GetNextPlayer(activePlayer);
      assert next == players[NextSeat(alive, activePlayer.id)] && next.playerIsAlive;
      activePlayer := next;
      OnlyTheTurnChanged();
      assert AliveFlags(players) == alive;
    }

    /** The invariant does not depend on whose turn it is. */
    twostate lemma OnlyTheTurnChanged()
      requires old(Invariant())
      requires unchanged(players) && unchanged(positions)
      ensures Invariant()
    {
    }

    /**
     * The dispatch on the type of the space the active player stands on.
     * Go, railroads, utilities and free parking do nothing; a card space
     * whose deck was never built changes nothing and reports it.
     */
    method ResolveSpace(activePlayer: Player, currentPosition: Position,
                        prison1: int, prison2: int, housesBought: int, hotelsBought: int)
      returns (outcome: TurnOutcome)
      requires Invariant() && activePlayer in players && activePlayer.playerIsAlive && currentPosition in positions
      requires chanceEngine.Valid() && communityChestEngine.Valid()
      requires IsDieValue(prison1) && IsDieValue(prison2)
      modifies players`balance, activePlayer`positionsAcquired, activePlayer`playerIsAlive
      modifies activePlayer`imprisoned, activePlayer`positionIndex, activePlayer`rollsInPrison
      modifies positions`buildingCount, positions`owner
      modifies chanceEngine`cardIndexPointer, chanceEngine`drawn
      modifies communityChestEngine`cardIndexPointer, communityChestEngine`drawn
      ensures Invariant() && chanceEngine.Valid() && communityChestEngine.Valid()
      ensures forall pl | pl in players && pl != activePlayer :: pl.playerIsAlive == old(pl.playerIsAlive)
      ensures SpaceResolved(activePlayer, currentPosition, old(activePlayer.imprisoned), old(activePlayer.positionIndex),
                            prison1, prison2, housesBought, hotelsBought, outcome)
      ensures outcome == DeckNotInitialised ==>
        && ((currentPosition.kind == chance && !chanceEngine.Ready()) ||
            (currentPosition.kind == communitychest && !communityChestEngine.Ready()))
        && activePlayer.playerIsAlive && activePlayer.positionIndex == old(activePlayer.positionIndex)
    {
      match currentPosition.kind {
        case go =>
        case property =>
          SimulateLandOnProperty(activePlayer, currentPosition);
        case communitychest =>
          outcome := ResolveCardSpace(activePlayer, currentPosition, housesBought, hotelsBought);
          return;
        case tax =>
          SimulateLandOnTax(activePlayer, currentPosition);
        case railroad =>
        case chance =>
          outcome := ResolveCardSpace(activePlayer, currentPosition, housesBought, hotelsBought);
          return;
        case jail =>
          SimulateLandOnJail(activePlayer, prison1, prison2);
        case utility =>
        case freeparking =>
        case gotojail =>
          SimulateLandOnGoToJail(activePlayer);
      }
      outcome := TurnCompleted(NoRequest);
    }

    /**
     * A Chance or Community Chest space: the card drawn from the space's deck
     * is resolved; a deck that was never built changes nothing and is reported.
     */
    method ResolveCardSpace(activePlayer: Player, currentPosition: Position, housesBought: int, hotelsBought: int)
      returns (outcome: TurnOutcome)
      requires Invariant() && activePlayer in players && activePlayer.playerIsAlive
      requires currentPosition.kind == chance || currentPosition.kind == communitychest
      requires chanceEngine.Valid() && communityChestEngine.Valid()
      modifies players`balance, activePlayer`imprisoned, activePlayer`positionIndex, activePlayer`playerIsAlive
      modifies positions`buildingCount, positions`owner
      modifies chanceEngine`cardIndexPointer, chanceEngine`drawn
      modifies communityChestEngine`cardIndexPointer, communityChestEngine`drawn
      ensures Invariant() && chanceEngine.Valid() && communityChestEngine.Valid()
      ensures forall pl | pl in players && pl != activePlayer :: pl.playerIsAlive == old(pl.playerIsAlive)
      ensures outcome == DeckNotInitialised <==>
        (currentPosition.kind == chance && !chanceEngine.Ready()) ||
        (currentPosition.kind == communitychest && !communityChestEngine.Ready())
      ensures CardSpaceResolved(activePlayer, currentPosition, old(activePlayer.imprisoned),
                                old(activePlayer.positionIndex), housesBought, hotelsBought, outcome)
      ensures outcome == DeckNotInitialised ==>
        activePlayer.playerIsAlive && activePlayer.positionIndex == old(activePlayer.positionIndex)
    {
      var request;
      if currentPosition.kind == chance {
        if !chanceEngine.Ready() {
          return DeckNotInitialised;
        }
        request := SimulateLandOnChance(activePlayer, housesBought, hotelsBought);
      } else {
        if !communityChestEngine.Ready() {
          return DeckNotInitialised;
        }
        request := SimulateCommunityChest(activePlayer, players);
      }
      outcome := TurnCompleted(request);
    }

    /** While the game is in progress some player other than the active one is alive. */
    ghost method AnotherLivingPlayer() returns (other: Player)
      requires Valid() && GameInProgress(players)
      ensures other in players && other != activePlayer && other.playerIsAlive
      ensures other.id < |players| && players[other.id] == other && other.id != activePlayer.id
      ensures activePlayer.id < |players| && players[activePlayer.id] == activePlayer
    {
      var i, j :| 0 <= i < |players| && 0 <= j < |players| && i != j &&
        players[i].playerIsAlive && players[j].playerIsAlive;
      other := if players[i] != activePlayer then players[i] else players[j];
    }

    /**
     * A property: an unowned one is bought, without paying its price, when the
     * player can afford it, and otherwise left to the auction, which does
     * nothing. On an owned one the player pays the rent for its building
     * count to the owner, and goes bankrupt to the owner exactly when its
     * balance is then negative.
     */
    method SimulateLandOnProperty(activePlayer: Player, currentPosition: Position)
      requires Invariant() && activePlayer in players && currentPosition in positions
      requires currentPosition.kind == property
      modifies players`balance, activePlayer`positionsAcquired, activePlayer`playerIsAlive
      modifies positions`buildingCount, positions`owner
      ensures LandedOnProperty(activePlayer, currentPosition)
      ensures old(activePlayer.playerIsAlive) ==> Invariant()
    {
      if currentPosition.HasOwner() {
        activePlayer.PayRent(currentPosition);
        if activePlayer.HasBeenBankrupted() {
          SimulateBankruptcyByPlayer(activePlayer, currentPosition.owner);
        }
      } else {
        if activePlayer.WantsToPurchasePosition(currentPosition) {
          activePlayer.PurchasePosition(currentPosition);
        } else {
          SimulateAuction(currentPosition);
        }
      }
    }

    /**
     * A Chance space: the next card is drawn and acts on the player, whose
     * balance changes by the card's amount (repairs use the given house and
     * hotel counts); bankruptcy to the bank follows exactly when the balance
     * is then negative. Calls the card makes on undefined Player members are
     * returned.
     */
    method SimulateLandOnChance(activePlayer: Player, housesBought: int, hotelsBought: int) returns (request: Request)
      requires Invariant() && activePlayer in players && chanceEngine.Valid() && chanceEngine.Ready()
      modifies chanceEngine`cardIndexPointer, chanceEngine`drawn
      modifies activePlayer`balance, activePlayer`imprisoned, activePlayer`positionIndex, activePlayer`playerIsAlive
      modifies positions`buildingCount, positions`owner
      ensures chanceEngine.Valid()
      ensures DrewChanceCard(activePlayer, old(activePlayer.imprisoned), old(activePlayer.positionIndex),
                             housesBought, hotelsBought, request)
      ensures old(activePlayer.playerIsAlive) ==> Invariant()
    {
      request := chanceEngine.Simulate(activePlayer, housesBought, hotelsBought);
      SettleWithBank(activePlayer);
    }

    /**
     * How every handler that owes the bank ends: a negative balance
     * bankrupts the player to the bank; otherwise nothing changes.
     */
    method SettleWithBank(activePlayer: Player)
      requires Consistent() && SolventBut(activePlayer) && activePlayer in players
      modifies positions`buildingCount, positions`owner, activePlayer`playerIsAlive
      ensures SettledWithBank(activePlayer)
      ensures old(activePlayer.playerIsAlive) ==> Invariant()
    {
      if activePlayer.HasBeenBankrupted() {
        SimulateBankruptcyByBanker(activePlayer);
      }
    }

    /**
     * A Community Chest space: the next card is drawn and acts on the player,
     * whose balance changes by the card's amount; bankruptcy to the bank
     * follows exactly when the balance is then negative. Calls the card makes
     * on undefined Player members are returned.
     */
    method SimulateCommunityChest(activePlayer: Player, players: seq<Player>) returns (request: Request)
      requires Invariant() && activePlayer in this.players && players == this.players
      requires communityChestEngine.Valid() && communityChestEngine.Ready()
      modifies communityChestEngine`cardIndexPointer, communityChestEngine`drawn
      modifies activePlayer`balance, activePlayer`imprisoned, activePlayer`positionIndex, activePlayer`playerIsAlive
      modifies positions`buildingCount, positions`owner
      ensures communityChestEngine.Valid()
      ensures DrewCommunityChestCard(activePlayer, old(activePlayer.imprisoned), old(activePlayer.positionIndex), request)
      ensures old(activePlayer.playerIsAlive) ==> Invariant()
    {
      request := communityChestEngine.Simulate(activePlayer, players);
      SettleWithBank(activePlayer);
    }

    /**
     * The Jail space: an imprisoned player rolls in prison (die values
     * supplied); the third roll there, or a double, releases it and moves it
     * on by that roll. A player just visiting is untouched.
     */
    method SimulateLandOnJail(activePlayer: Player, v1: int, v2: int)
      requires Invariant() && activePlayer in players
      requires IsDieValue(v1) && IsDieValue(v2)
      modifies activePlayer`rollsInPrison, activePlayer`imprisoned, activePlayer`positionIndex
      ensures Invariant()
      ensures VisitedJail(activePlayer, old(activePlayer.imprisoned), old(activePlayer.positionIndex), v1, v2)
    {
      if activePlayer.imprisoned {
        activePlayer.RollInPrison(v1, v2);
        if activePlayer.ShouldBeReleasedFromPrison() {
          activePlayer.ReleaseFromPrison();
        }
      }
    }

    /** The Go To Jail space: the player is imprisoned on the Jail space. */
    method SimulateLandOnGoToJail(activePlayer: Player)
      requires Invariant() && activePlayer in players
      modifies activePlayer`imprisoned, activePlayer`positionIndex
      ensures Invariant()
      ensures activePlayer.imprisoned && activePlayer.positionIndex == JailIndex
      ensures activePlayer.rollsInPrison == old(activePlayer.rollsInPrison)
    {
      activePlayer.Imprison();
    }
  }

  /** The loop of bankruptcy to the bank: each listed position is razed, then loses its owner. */
  method RazeAndRepossess(held: seq<Position>)
    modifies held`buildingCount, held`owner
    ensures forall q | q in held :: q.buildingCount == 0 && q.owner == null
  {
    for i := 0 to |held|
      invariant forall j | 0 <= j < i :: held[j].buildingCount == 0 && held[j].owner == null
    {
      held[i].DemolishBuildings();
      held[i].Repossess();
    }
  }

  /** The loop of bankruptcy to a player: each listed position is razed, then passes to the creditor. */
  method RazeAndTransfer(held: seq<Position>, creditor: Player)
    modifies held`buildingCount, held`owner
    ensures forall q | q in held :: q.buildingCount == 0 && q.owner == creditor
  {
    for i := 0 to |held|
      invariant forall j | 0 <= j < i :: held[j].buildingCount == 0 && held[j].owner == creditor
    {
      held[i].DemolishBuildings();
      held[i].AssignNewOwner(creditor);
    }
  }

  /**
   * The building step over the monopolies, which start with the building
   * counts `counts` and have the house prices `houses`.
   */
  method BuildOnMonopolies(activePlayer: Player, monopolies: seq<Position>,
                           ghost balance0: int, ghost counts: seq<int>, ghost houses: seq<int>)
    requires Distinct(monopolies) && activePlayer.balance == balance0
    requires |counts| == |houses| == |monopolies|
    requires forall j | 0 <= j < |monopolies| ::
      monopolies[j].buildingCount == counts[j] && monopolies[j].house == houses[j]
    requires forall q | q in monopolies :: 0 <= q.buildingCount <= 4
    modifies activePlayer`balance, monopolies`buildingCount
    ensures activePlayer.balance == BalanceBefore(balance0, counts, houses, |monopolies|)
    ensures forall j | 0 <= j < |monopolies| ::
      monopolies[j].buildingCount == counts[j] + if BuildsAt(balance0, counts, houses, j) then 1 else 0
    ensures forall q | q in monopolies :: 0 <= q.buildingCount <= 4
  {
    ghost var built, balances := BuildingPlan(balance0, counts, houses);
    BuildInOrder(activePlayer, monopolies, counts, houses, built, balances);
  }

  /**
   * The loop of the building step: the i-th monopoly gets a house exactly
   * when `built[i]`, and the balance before it is `balances[i]`.
   */
  method BuildInOrder(activePlayer: Player, monopolies: seq<Position>, ghost counts: seq<int>, ghost houses: seq<int>,
                      ghost built: seq<bool>, ghost balances: seq<int>)
    requires Distinct(monopolies)
    requires |counts| == |houses| == |monopolies| == |built| && |balances| == |monopolies| + 1
    requires activePlayer.balance == balances[0]
    requires forall j | 0 <= j < |monopolies| ::
      monopolies[j].buildingCount == counts[j] && monopolies[j].house == houses[j]
    requires forall j | 0 <= j < |monopolies| :: built[j] == BuildsHouse(balances[j], counts[j], houses[j])
    requires forall j | 0 <= j < |monopolies| ::
      balances[j + 1] == if built[j] then balances[j] - houses[j] else balances[j]
    modifies activePlayer`balance, monopolies`buildingCount
    ensures activePlayer.balance == balances[|monopolies|]
    ensures forall j | 0 <= j < |monopolies| :: monopolies[j].buildingCount == counts[j] + if built[j] then 1 else 0
  {
    for i := 0 to |monopolies|
      invariant activePlayer.balance == balances[i]
      invariant forall j | 0 <= j < i :: monopolies[j].buildingCount == counts[j] + if built[j] then 1 else 0
      invariant forall j | i <= j < |monopolies| :: monopolies[j].buildingCount == counts[j]
    {
      var position := monopolies[i];
      if !activePlayer.WantsToPurchaseBuildingAtPosition(position) || position.MaxBuildingsReached() {
        continue;
      }
      activePlayer.DecreaseBalance(position.house);
      position.AddBuilding(1);
    }
  }

  /**
   * The building step's decisions, one per monopoly, and the balance before
   * each of them, as `BuildsAt` and `BalanceBefore` define them.
   */
  ghost method BuildingPlan(balance0: int, counts: seq<int>, houses: seq<int>)
    returns (built: seq<bool>, balances: seq<int>)
    requires |counts| == |houses|
    ensures |built| == |counts| && |balances| == |counts| + 1
    ensures balances[0] == balance0 && balances[|counts|] == BalanceBefore(balance0, counts, houses, |counts|)
    ensures forall j | 0 <= j < |counts| :: built[j] == BuildsAt(balance0, counts, houses, j)
    ensures forall j | 0 <= j < |counts| :: built[j] == BuildsHouse(balances[j], counts[j], houses[j])
    ensures forall j | 0 <= j < |counts| ::
      balances[j + 1] == if built[j] then balances[j] - houses[j] else balances[j]
  {
    built, balances := [], [balance0];
    for i := 0 to |counts|
      invariant |built| == i && |balances| == i + 1
      invariant forall j | 0 <= j <= i :: balances[j] == BalanceBefore(balance0, counts, houses, j)
      invariant forall j | 0 <= j < i :: built[j] == BuildsAt(balance0, counts, houses, j)
    {
      var b := BuildsAt(balance0, counts, houses, i);
      built := built + [b];
      balances := balances + [BalanceBefore(balance0, counts, houses, i + 1)];
    }
  }

  /** The building counts of the positions, in order. */
  function Counts(ps: seq<Position>): (counts: seq<int>)
    reads ps
    ensures |counts| == |ps| && forall j | 0 <= j < |ps| :: counts[j] == ps[j].buildingCount
  {
    seq(|ps|, j requires 0 <= j < |ps| reads ps => ps[j].buildingCount)
  }

  /** The house prices of the positions, in order. */
  function Houses(ps: seq<Position>): (houses: seq<int>)
    ensures |houses| == |ps| && forall j | 0 <= j < |ps| :: houses[j] == ps[j].house
  {
    seq(|ps|, j requires 0 <= j < |ps| => ps[j].house)
  }

  /**
   * Whether a house goes on a position with `count` buildings and house price
   * `house` when the player holds `balance`: the player wants it (it can pay
   * and the count is at most three) and the maximum is not reached.
   */
  predicate BuildsHouse(balance: int, count: int, house: int) {
    balance - house >= 0 && count <= 3 && !(count >= 5)
  }

  /**
   * The balance on reaching the i-th monopoly of the building step, which
   * visits positions with the given building counts and house prices in order.
   */
  function BalanceBefore(balance: int, counts: seq<int>, houses: seq<int>, i: nat): int
    requires i <= |counts| && |counts| == |houses|
  {
    if i == 0 then balance
    else
      var b := BalanceBefore(balance, counts, houses, i - 1);
      if BuildsHouse(b, counts[i - 1], houses[i - 1]) then b - houses[i - 1] else b
  }

  /** Whether the building step puts a house on the j-th monopoly. */
  predicate BuildsAt(balance: int, counts: seq<int>, houses: seq<int>, j: nat)
    requires j < |counts| && |counts| == |houses|
  {
    BuildsHouse(BalanceBefore(balance, counts, houses, j), counts[j], houses[j])
  }

  /**
   * The building step never makes a solvent balance negative, and never
   * raises it when house prices are not negative.
   */
  lemma {:induction false} BuildingKeepsBalanceNonNegative(balance: int, counts: seq<int>, houses: seq<int>, i: nat)
    requires i <= |counts| && |counts| == |houses|
    ensures balance >= 0 ==> BalanceBefore(balance, counts, houses, i) >= 0
    ensures (forall j | 0 <= j < |houses| :: houses[j] >= 0) ==> BalanceBefore(balance, counts, houses, i) <= balance
  {
    if i > 0 {
      BuildingKeepsBalanceNonNegative(balance, counts, houses, i - 1);
    }
  }

}
