// The turn engine of the older revision of the simulator, which the entry
// point still runs. It has no card decks, no jail rules and no building
// step: landing on Go pays 200, a vacant property is bought when the player
// has the price (without paying it), an owned one charges rent, tax is paid,
// and Go To Jail imprisons the player on the Jail space.
module Legacy {
  import opened Board
  import opened Seating
  import opened LegacyPieces

  /** Every player sits at the index that is its Id. */
  predicate Seated(players: seq<Player>) {
    forall i | 0 <= i < |players| :: players[i].id == i
  }

  /** The alive flag of each seat. */
  function AliveFlags(players: seq<Player>): (alive: seq<bool>)
    reads players`playerIsAlive
    ensures |alive| == |players|
    ensures forall i | 0 <= i < |players| :: alive[i] == players[i].playerIsAlive
  {
    if players == [] then []
    else AliveFlags(players[..|players| - 1]) + [players[|players| - 1].playerIsAlive]
  }

  /**
   * The index the Go To Jail space sends a player to: the index of the first
   * position named `name`. Taking the first position with the name and then
   * the index of its first occurrence gives that same index, since an earlier
   * occurrence of the object would carry the name too. There is none when no
   * position has the name, where the lookup throws.
   */
  function FirstIndexNamed(positions: seq<Position>, name: Name): (r: Option<nat>)
    ensures r.Some? <==> exists i | 0 <= i < |positions| :: positions[i].name == name
    ensures r.Some? ==>
      && r.value < |positions| && positions[r.value].name == name
      && forall j | 0 <= j < r.value :: positions[j].name != name
  {
    if positions == [] then None
    else if positions[0].name == name then Some(0)
    else match FirstIndexNamed(positions[1..], name)
      case None => None
      case Some(k) => Some(k + 1)
  }

  datatype Option<T> = None | Some(value: T)

  /** The positions carry the names of the forty spaces, in board order. */
  predicate StandardNames(positions: seq<Position>) {
    |positions| == BoardSize && forall i | 0 <= i < |positions| :: positions[i].name == BoardOrder[i]
  }

  /** On a board whose positions are named in board order, Go To Jail sends a player to index 10. */
  lemma JailLookupOnStandardBoard(positions: seq<Position>)
    requires StandardNames(positions)
    ensures FirstIndexNamed(positions, Jail) == Some(JailIndex)
    ensures JailIndex == 10
  {
  }

  /** The result of one turn step. */
  datatype TurnOutcome =
      /** The turn ran to its end and passed to the next player. */
    | TurnCompleted
      /** Go To Jail found no position named Jail: the lookup throws after the player was imprisoned. */
    | NoJailOnBoard

  /** A property has a rent for each building count 0..5. */
  predicate WellFormedPosition(q: Position) {
    q.kind == property ==> |q.rent| == 6
  }

  class GameState {
    const players: seq<Player>
    const positions: seq<Position>
    var activePlayer: Player

    /**
     * A game of `playerCount` players seated by Id, each with the starting
     * balance, on the given board; the first player starts. The game is valid
     * once the board is forty well-formed, unowned positions without buildings.
     */
    constructor (playerCount: nat, startingBalance: int, board: seq<Position>)
      requires playerCount >= 1
      ensures positions == board && |players| == playerCount && Seated(players)
      ensures forall p | p in players :: fresh(p) && p.balance == startingBalance && p.position == 0
      ensures forall p | p in players :: p.positionsAcquired == [] && !p.imprisoned && p.playerIsAlive
      ensures activePlayer == players[0]
      ensures
        (&& |board| == BoardSize
         && forall q | q in board :: WellFormedPosition(q) && q.owner == null && q.buildingCount == 0)
        ==> Valid()
    {
      var prepared := PreparePlayers(playerCount, startingBalance);
      players := prepared;
      activePlayer := prepared[0];
      positions := board;
    }

    /** The players of a new game, seated by Id. */
    static method PreparePlayers(playerCount: nat, startingBalance: int) returns (players: seq<Player>)
      ensures |players| == playerCount && Seated(players)
      ensures forall p | p in players :: fresh(p) && p.balance == startingBalance && p.position == 0
      ensures forall p | p in players :: p.positionsAcquired == [] && !p.imprisoned && p.playerIsAlive
    {
      players := [];
      for i := 0 to playerCount
        invariant |players| == i && Seated(players)
        invariant forall p | p in players :: fresh(p) && p.balance == startingBalance && p.position == 0
        invariant forall p | p in players :: p.positionsAcquired == [] && !p.imprisoned && p.playerIsAlive
      {
        var player := new Player.CreateNew(i, startingBalance);
        players := players + [player];
      }
    }

    /** The game goes on exactly while two different players are alive. */
    static function GameInProgress(players: seq<Player>): (inProgress: bool)
      reads players`playerIsAlive
      ensures inProgress <==>
        exists i, j | 0 <= i < |players| && 0 <= j < |players| ::
          i != j && players[i].playerIsAlive && players[j].playerIsAlive
    {
      var alive := AliveFlags(players);
      GameInProgressIffTwoAlive(alive);
      Seating.GameInProgress(alive)
    }

    /**
     * The next player: among the living players and the current one, the one
     * seated after the current player, wrapping around. That is the first
     * living player after the current one in cyclic order, or the current
     * player when nobody else is alive.
     */
    function GetNextPlayer(activePlayer: Player): (next: Player)
      reads players`playerIsAlive
      requires Seated(players) && activePlayer in players
      ensures next in players
      ensures IsNextLiving(AliveFlags(players), activePlayer.id, next.id)
      ensures next == players[NextSeat(AliveFlags(players), activePlayer.id)]
    {
      var alive := AliveFlags(players);
      NextSeatIsNextLiving(alive, activePlayer.id);
      players[NextSeat(alive, activePlayer.id)]
    }

    /** Forty well-formed positions. */
    predicate BoardShape() {
      |positions| == BoardSize && forall q | q in positions :: WellFormedPosition(q)
    }

    /**
     * What holds at every step: the board shape, players seated by Id, no
     * buildings anywhere (this revision never builds), every owner a player
     * of the game, and every listed acquisition a position of the board.
     */
    ghost predicate Consistent()
      reads players`positionsAcquired, positions`buildingCount, positions`owner
    {
      && BoardShape() && |players| >= 1 && Seated(players)
      && (forall q | q in positions :: q.buildingCount == 0 && (q.owner == null || q.owner in players))
      && forall pl | pl in players :: forall q | q in pl.positionsAcquired :: q in positions
    }

    /** Between turns: the invariant and a living active player. */
    ghost predicate Valid()
      reads this`activePlayer, players`positionsAcquired, players`playerIsAlive
      reads positions`buildingCount, positions`owner
    {
      Consistent() && activePlayer in players && activePlayer.playerIsAlive
    }

    // What a space does, as conditions on the state after it

    /** No player's balance, alive flag or list of acquired positions changed. */
    twostate predicate PlayersKept()
      reads players
    {
      forall pl | pl in players ::
        && pl.balance == old(pl.balance) && pl.playerIsAlive == old(pl.playerIsAlive)
        && pl.positionsAcquired == old(pl.positionsAcquired)
    }

    /** The balances of the players other than `p` did not change. */
    twostate predicate OthersPaidNothing(p: Player)
      reads players
    {
      forall pl | pl in players && pl != p :: pl.balance == old(pl.balance)
    }

    /** No position's building count or owner changed. */
    twostate predicate BoardKept()
      reads positions
    {
      forall q | q in positions :: q.buildingCount == old(q.buildingCount) && q.owner == old(q.owner)
    }

    /** The player stands on `wasAt` and its prison flag did not change. */
    twostate predicate StaysPut(p: Player, wasAt: int)
      reads p
    {
      p.position == wasAt && p.imprisoned == old(p.imprisoned)
    }

    /**
     * A tax space: the balance fell by exactly its cost, and the player went
     * bankrupt to the bank, its holdings razed and repossessed, exactly when
     * the balance is then negative. No other position or balance changed.
     */
    twostate predicate PaidTax(p: Player, cp: Position)
      reads players, positions, p, p.positionsAcquired
    {
      && p.balance == old(p.balance) - cp.cost
      && p.playerIsAlive == (old(p.playerIsAlive) && p.balance >= 0)
      && p.positionsAcquired == old(p.positionsAcquired)
      && (p.balance < 0 ==> forall q | q in p.positionsAcquired :: q.buildingCount == 0 && q.owner == null)
      && (forall q | q in positions && (p.balance >= 0 || q !in p.positionsAcquired) ::
            q.buildingCount == old(q.buildingCount) && q.owner == old(q.owner))
      && OthersPaidNothing(p)
    }

    /**
     * A property space. A vacant one was acquired, without charge, exactly
     * when the balance covered its price, and nothing else changed. An owned
     * one charged the rent for its building count to the payer and credited
     * it to the owner (nothing when they are the same player); the payer went
     * bankrupt to the owner, its holdings razed and passed to the owner,
     * exactly when its balance is then negative.
     */
    twostate predicate LandedOnProperty(p: Player, cp: Position)
      requires old(Consistent()) && cp in positions && cp.kind == property
      reads players, positions, p, p.positionsAcquired, cp
    {
      && (old(cp.owner) == null ==>
            && OthersPaidNothing(p)
            && p.balance == old(p.balance) && p.playerIsAlive == old(p.playerIsAlive)
            && (forall q | q in positions :: q.buildingCount == old(q.buildingCount))
            && (forall q | q in positions && q != cp :: q.owner == old(q.owner))
            && (old(p.balance) >= cp.cost ==>
                  cp.owner == p && p.positionsAcquired == old(p.positionsAcquired) + [cp])
            && (old(p.balance) < cp.cost ==>
                  cp.owner == null && p.positionsAcquired == old(p.positionsAcquired)))
      && (old(cp.owner) != null ==>
            var creditor, rent := old(cp.owner), old(cp.rent[cp.buildingCount]);
            && p.positionsAcquired == old(p.positionsAcquired)
            && (creditor != p ==> p.balance == old(p.balance) - rent && creditor.balance == old(creditor.balance) + rent)
            && (creditor == p ==> p.balance == old(p.balance))
            && (forall pl | pl in players && pl != p && pl != creditor :: pl.balance == old(pl.balance))
            && p.playerIsAlive == (old(p.playerIsAlive) && p.balance >= 0)
            && (p.balance < 0 ==> forall q | q in p.positionsAcquired :: q.buildingCount == 0 && q.owner == creditor)
            && (forall q | q in positions && (p.balance >= 0 || q !in p.positionsAcquired) ::
                  q.buildingCount == old(q.buildingCount) && q.owner == old(q.owner)))
    }

    /**
     * The space `cp` was resolved by its type for the player `p`, who stood
     * on `wasAt`. Go paid 200; a property was bought or charged rent; tax was
     * paid; Go To Jail imprisoned the player on the first position named
     * Jail, or found none; the other spaces changed nothing. Only Go To Jail
     * moves the player, and only a missing Jail ends the turn early.
     */
    twostate predicate SpaceResolved(p: Player, cp: Position, wasAt: int, outcome: TurnOutcome)
      requires old(Consistent()) && cp in positions
      reads players, positions, p, p.positionsAcquired, cp
    {
      match cp.kind
      case go =>
        && p.balance == old(p.balance) + 200 && OthersPaidNothing(p)
        && p.playerIsAlive == old(p.playerIsAlive) && p.positionsAcquired == old(p.positionsAcquired)
        && BoardKept() && StaysPut(p, wasAt) && outcome == TurnCompleted
      case property =>
        LandedOnProperty(p, cp) && StaysPut(p, wasAt) && outcome == TurnCompleted
      case tax =>
        PaidTax(p, cp) && StaysPut(p, wasAt) && outcome == TurnCompleted
      case gotojail =>
        && p.imprisoned && PlayersKept() && BoardKept()
        && (match FirstIndexNamed(positions, Jail)
            case Some(i) => outcome == TurnCompleted && p.position == i
            case None => outcome == NoJailOnBoard && p.position == wasAt)
      case _ =>
        PlayersKept() && BoardKept() && StaysPut(p, wasAt) && outcome == TurnCompleted
    }

    /**
     * One pass of the game loop, which runs while the game is in progress:
     * the active player rolls and lands on the supplied index, the space is
     * resolved by its type and the turn passes to the next player. Only the
     * active player can die in a turn, and the turn always passes to another,
     * living, player.
     */
    method RunSimulationStep(landing: int) returns (outcome: TurnOutcome)
      requires Valid() && GameInProgress(players)
      requires 0 <= landing < BoardSize
      modifies this`activePlayer, players`position, players`imprisoned
      modifies players`balance, players`positionsAcquired, players`playerIsAlive
      modifies positions`buildingCount, positions`owner
      ensures Valid()
      ensures forall pl | pl in players && pl != old(activePlayer) :: pl.playerIsAlive == old(pl.playerIsAlive)
      ensures outcome == TurnCompleted ==>
        && activePlayer == players[NextSeat(AliveFlags(players), old(activePlayer).id)]
        && activePlayer != old(activePlayer)
      ensures outcome == NoJailOnBoard ==>
        && activePlayer == old(activePlayer)
        && positions[landing].kind == gotojail && FirstIndexNamed(positions, Jail).None?
    {
      ghost var other := AnotherLivingPlayer();
      outcome := MoveAndResolve(landing);
      if outcome == NoJailOnBoard {
        return;
      }
      PassTurn(other);
    }

    /**
     * The first half of a turn: the active player rolls, lands on the
     * supplied index, and that space is resolved. Only the active player can die.
     */
    method MoveAndResolve(landing: int) returns (outcome: TurnOutcome)
      requires Valid()
      requires 0 <= landing < BoardSize
      modifies activePlayer`position, activePlayer`imprisoned
      modifies players`balance, activePlayer`positionsAcquired, activePlayer`playerIsAlive
      modifies positions`buildingCount, positions`owner
      ensures Consistent()
      ensures forall pl | pl in players && pl != activePlayer :: pl.playerIsAlive == old(pl.playerIsAlive)
      ensures positions[landing] in positions && SpaceResolved(activePlayer, positions[landing], landing, outcome)
      ensures outcome == NoJailOnBoard ==>
        activePlayer.playerIsAlive && positions[landing].kind == gotojail && FirstIndexNamed(positions, Jail).None?
    {
      activePlayer.Roll(landing);
      var currentPosition := positions[activePlayer.position];
      outcome := ResolveSpace(activePlayer, currentPosition);
    }

    /**
     * The dispatch on the type of the space the active player stands on. Go
     * pays 200; a property is bought or charges rent; tax is paid; Go To Jail
     * imprisons the player on the first position named Jail. The other
     * spaces change nothing.
     */
    method ResolveSpace(activePlayer: Player, currentPosition: Position) returns (outcome: TurnOutcome)
      requires Consistent() && activePlayer in players && activePlayer.playerIsAlive && currentPosition in positions
      modifies players`balance, activePlayer`positionsAcquired, activePlayer`playerIsAlive
      modifies activePlayer`imprisoned, activePlayer`position
      modifies positions`buildingCount, positions`owner
      ensures Consistent()
      ensures forall pl | pl in players && pl != activePlayer :: pl.playerIsAlive == old(pl.playerIsAlive)
      ensures SpaceResolved(activePlayer, currentPosition, old(activePlayer.position), outcome)
      ensures outcome == NoJailOnBoard ==> activePlayer.playerIsAlive
    {
      outcome := TurnCompleted;
      match currentPosition.kind {
        case go =>
          SimulatePassingGo(activePlayer);
        case property =>
          SimulateLandOnVacantProperty(activePlayer, currentPosition);
        case communitychest =>
        case tax =>
          SimulateLandOnTax(activePlayer, currentPosition);
        case railroad =>
        case chance =>
        case jail =>
        case utility =>
        case freeparking =>
        case gotojail =>
          activePlayer.imprisoned := true;
          match FirstIndexNamed(positions, Jail) {
            case None =>
              return NoJailOnBoard;
            case Some(i) =>
              activePlayer.position := i;
          }
      }
    }

    /**
     * The turn passes to the next living player, who is never the player
     * whose turn it was while another one is alive.
     */
    method PassTurn(ghost other: Player)
      requires Consistent() && activePlayer in players
      requires other in players && other != activePlayer && other.playerIsAlive
      requires other.id < |players| && players[other.id] == other && other.id != activePlayer.id
      requires activePlayer.id < |players| && players[activePlayer.id] == activePlayer
      modifies this`activePlayer
      ensures Valid()
      ensures forall pl | pl in players :: pl.playerIsAlive == old(pl.playerIsAlive)
      ensures activePlayer == players[NextSeat(AliveFlags(players), old(activePlayer).id)]
      ensures activePlayer != old(activePlayer)
    {
      ghost var alive := AliveFlags(players);
      NextIsLivingWhenAnotherLives(alive, activePlayer.id, other.id);
      var next := GetNextPlayer(activePlayer);
      assert next == players[NextSeat(alive, activePlayer.id)] && next.playerIsAlive;
      activePlayer := next;
      OnlyTheTurnChanged();
      assert AliveFlags(players) == alive;
    }

    /** The invariant does not depend on whose turn it is. */
    twostate lemma OnlyTheTurnChanged()
      requires old(Consistent())
      requires unchanged(players) && unchanged(positions)
      ensures Consistent()
    {
    }

    /** While the game is in progress some player other than the active one is alive. */
    ghost method AnotherLivingPlayer() returns (other: Player)
      requires Valid() && GameInProgress(players)
      ensures other in players && other != activePlayer && other.playerIsAlive
      ensures other.id < |players| && players[other.id] == other && other.id != activePlayer.id
      ensures activePlayer.id < |players| && players[activePlayer.id] == activePlayer
    {
      var i, j :| 0 <= i < |players| && 0 <= j < |players| && i != j &&
        players[i].playerIsAlive && players[j].playerIsAlive;
      var k :| 0 <= k < |players| && players[k] == activePlayer;
      other := if i != k then players[i] else players[j];
    }

    /** Passing Go: the player is paid exactly 200. */
    method SimulatePassingGo(activePlayer: Player)
      modifies activePlayer`balance
      ensures activePlayer.balance == old(activePlayer.balance) + 200
    {
      activePlayer.IncreaseBalance(200);
    }

    /**
     * A tax space: the balance falls by exactly its cost, and bankruptcy to
     * the bank follows exactly when the balance is then negative.
     */
    method SimulateLandOnTax(activePlayer: Player, currentPosition: Position)
      requires Consistent() && activePlayer in players
      modifies activePlayer`balance, positions`buildingCount, positions`owner, activePlayer`playerIsAlive
      ensures activePlayer.balance == old(activePlayer.balance) - currentPosition.cost
      ensures activePlayer.playerIsAlive == (old(activePlayer.playerIsAlive) && activePlayer.balance >= 0)
      ensures activePlayer.balance < 0 ==>
        forall q | q in activePlayer.positionsAcquired :: q.buildingCount == 0 && q.owner == null
      ensures forall q | q in positions && (activePlayer.balance >= 0 || q !in activePlayer.positionsAcquired) ::
        q.buildingCount == old(q.buildingCount) && q.owner == old(q.owner)
      ensures Consistent()
    {
      activePlayer.DecreaseBalance(currentPosition.cost);
      if activePlayer.HasBeenBankrupted() {
        SimulateBankruptcyByBanker(activePlayer);
      }
    }

    /**
     * Bankruptcy to the bank: the player is killed, then every position it
     * lists loses its buildings and its owner. No other position changes.
     */
    method SimulateBankruptcyByBanker(activePlayer: Player)
      requires Consistent() && activePlayer in players
      modifies positions`buildingCount, positions`owner, activePlayer`playerIsAlive
      ensures !activePlayer.playerIsAlive
      ensures forall q | q in activePlayer.positionsAcquired :: q.buildingCount == 0 && q.owner == null
      ensures forall q | q in positions && q !in activePlayer.positionsAcquired ::
        q.buildingCount == old(q.buildingCount) && q.owner == old(q.owner)
      ensures Consistent()
    {
      activePlayer.KillPlayer();
      var held := activePlayer.positionsAcquired;
      assert forall i | 0 <= i < |held| :: held[i] in positions;
      RazeAndRepossess(held);
    }

    /**
     * A property space. An owned one charges its rent, paid to the owner,
     * and bankruptcy to the owner follows exactly when the payer's balance is
     * then negative. A vacant one is acquired exactly when the balance covers
     * its price, and the price is not deducted; the auction branch is never
     * taken since the player wants every position.
     */
    method SimulateLandOnVacantProperty(activePlayer: Player, currentPosition: Position)
      requires Consistent() && activePlayer in players && currentPosition in positions
      requires currentPosition.kind == property
      modifies players`balance, activePlayer`positionsAcquired, activePlayer`playerIsAlive
      modifies positions`buildingCount, positions`owner
      ensures old(currentPosition.owner) == null ==>
        && (forall pl | pl in players :: pl.balance == old(pl.balance))
        && activePlayer.playerIsAlive == old(activePlayer.playerIsAlive)
        && (forall q | q in positions :: q.buildingCount == old(q.buildingCount))
        && (forall q | q in positions && q != currentPosition :: q.owner == old(q.owner))
      ensures old(currentPosition.owner) == null && old(activePlayer.balance) >= currentPosition.cost ==>
        && currentPosition.owner == activePlayer
        && activePlayer.positionsAcquired == old(activePlayer.positionsAcquired) + [currentPosition]
      ensures old(currentPosition.owner) == null && old(activePlayer.balance) < currentPosition.cost ==>
        && currentPosition.owner == null
        && activePlayer.positionsAcquired == old(activePlayer.positionsAcquired)
      ensures old(currentPosition.owner) != null ==>
        var creditor, rent := old(currentPosition.owner), old(currentPosition.rent[currentPosition.buildingCount]);
        && activePlayer.positionsAcquired == old(activePlayer.positionsAcquired)
        && (creditor != activePlayer ==>
              && activePlayer.balance == old(activePlayer.balance) - rent
              && creditor.balance == old(creditor.balance) + rent)
        && (creditor == activePlayer ==> activePlayer.balance == old(activePlayer.balance))
        && (forall pl | pl in players && pl != activePlayer && pl != creditor :: pl.balance == old(pl.balance))
        && activePlayer.playerIsAlive == (old(activePlayer.playerIsAlive) && activePlayer.balance >= 0)
        && (activePlayer.balance < 0 ==>
              forall q | q in activePlayer.positionsAcquired :: q.buildingCount == 0 && q.owner == creditor)
        && (forall q | q in positions && (activePlayer.balance >= 0 || q !in activePlayer.positionsAcquired) ::
              q.buildingCount == old(q.buildingCount) && q.owner == old(q.owner))
      ensures Consistent()
    {
      if currentPosition.HasOwner() {
        activePlayer.PayRent(currentPosition);
        if activePlayer.HasBeenBankrupted() {
          SimulateBankruptcyByPlayer(activePlayer, currentPosition.owner);
        }
      } else {
        if activePlayer.WantsToPurchase(currentPosition) {
          if activePlayer.balance >= currentPosition.cost {
            activePlayer.positionsAcquired := activePlayer.positionsAcquired + [currentPosition];
            currentPosition.owner := activePlayer;
          }
        } else {
          SimulateAuction(currentPosition);
        }
      }
    }

    /**
     * Bankruptcy to another player: the payer is killed, then every position
     * it lists loses its buildings and passes to the creditor. No other
     * position changes; the creditor's list of acquired positions is not
     * extended.
     */
    method SimulateBankruptcyByPlayer(activePlayer: Player, currentPositionOwner: Player)
      requires Consistent() && activePlayer in players && currentPositionOwner in players
      modifies positions`buildingCount, positions`owner, activePlayer`playerIsAlive
      ensures !activePlayer.playerIsAlive
      ensures forall q | q in activePlayer.positionsAcquired ::
        q.buildingCount == 0 && q.owner == currentPositionOwner
      ensures forall q | q in positions && q !in activePlayer.positionsAcquired ::
        q.buildingCount == old(q.buildingCount) && q.owner == old(q.owner)
      ensures Consistent()
    {
      activePlayer.KillPlayer();
      var held := activePlayer.positionsAcquired;
      assert forall i | 0 <= i < |held| :: held[i] in positions;
      RazeAndTransfer(held, currentPositionOwner);
    }

    /** The auction of a position nobody bought: it does nothing. */
    method SimulateAuction(currentPosition: Position)
    {
    }
  }

  /** The loop of bankruptcy to the bank: each listed position is razed and loses its owner. */
  method RazeAndRepossess(held: seq<Position>)
    modifies held`buildingCount, held`owner
    ensures forall q | q in held :: q.buildingCount == 0 && q.owner == null
  {
    for i := 0 to |held|
      invariant forall j | 0 <= j < i :: held[j].buildingCount == 0 && held[j].owner == null
    {
      held[i].buildingCount := 0;
      held[i].owner := null;
    }
  }

  /** The loop of bankruptcy to a player: each listed position is razed and passes to the creditor. */
  method RazeAndTransfer(held: seq<Position>, creditor: Player)
    modifies held`buildingCount, held`owner
    ensures forall q | q in held :: q.buildingCount == 0 && q.owner == creditor
  {
    for i := 0 to |held|
      invariant forall j | 0 <= j < i :: held[j].buildingCount == 0 && held[j].owner == creditor
    {
      held[i].buildingCount := 0;
      held[i].owner := creditor;
    }
  }
}
