// The players and board positions of the older revision of the simulator,
// the one the entry point still runs. Their members are public properties,
// and that revision's engine sets several of them directly.
//
// This revision of Player does not define some members its engine calls
// (`CreateNew`, `Roll`, `KillPlayer`, `IncreaseBalance`, `DecreaseBalance`,
// `HasBeenBankrupted`). They are given bodies here on the assumption that
// they behave like their namesakes in the current revision; `Roll` takes the
// index the player lands on instead of a random source.
module LegacyPieces {
  import opened Board

  /** A space of the board with its building count and owner, both settable. */
  class Position {
    var buildingCount: int
    const name: Name
    const kind: PositionType
    var owner: Player?
    const corner: bool
    const cost: int
    const color: string
    const rent: seq<int>
    const group: seq<int>
    const house: int

    /** A position as the board file describes it: no buildings and no owner. */
    constructor (name: Name, kind: PositionType, corner: bool, cost: int, color: string,
                 rent: seq<int>, group: seq<int>, house: int)
      ensures this.name == name && this.kind == kind && this.corner == corner
      ensures this.cost == cost && this.color == color && this.rent == rent
      ensures this.group == group && this.house == house
      ensures buildingCount == 0 && owner == null
    {
      this.name, this.kind, this.corner, this.cost := name, kind, corner, cost;
      this.color, this.rent, this.group, this.house := color, rent, group, house;
      buildingCount, owner := 0, null;
    }

    predicate HasOwner()
      reads this
    {
      owner != null
    }

    predicate MaxBuildingsReached()
      reads this
    {
      buildingCount >= 5
    }

    /** Adds one building whatever the argument says; nothing else changes. */
    method AddBuilding(i: int)
      modifies this`buildingCount
      ensures buildingCount == old(buildingCount) + 1
      ensures MaxBuildingsReached() <==> old(buildingCount) >= 4
    {
      buildingCount := buildingCount + 1;
    }
  }

  class Player {
    const id: int
    var position: int
    var positionsAcquired: seq<Position>
    var balance: int
    var imprisoned: bool
    var playerIsAlive: bool

    /** Assumed: a new player on Go with the starting balance, free, alive and owning nothing. */
    constructor CreateNew(id: int, startingBalance: int)
      ensures this.id == id && balance == startingBalance && position == 0
      ensures positionsAcquired == [] && !imprisoned && playerIsAlive
    {
      this.id := id;
      balance := startingBalance;
      position := 0;
      positionsAcquired := [];
      imprisoned, playerIsAlive := false, true;
    }

    /**
     * Pays the rent of the position to its owner by adjusting both balances
     * directly. The payer loses and the owner gains exactly the rent, with no
     * floor at zero, so the sum of the two balances is unchanged.
     */
    method PayRent(currentPosition: Position)
      requires currentPosition.owner != null
      requires 0 <= currentPosition.buildingCount < |currentPosition.rent|
      modifies this`balance, currentPosition.owner`balance
      ensures currentPosition.owner != this ==>
        balance == old(balance) - currentPosition.rent[currentPosition.buildingCount] &&
        currentPosition.owner.balance ==
          old(currentPosition.owner.balance) + currentPosition.rent[currentPosition.buildingCount]
      ensures currentPosition.owner == this ==> balance == old(balance)
      ensures balance + currentPosition.owner.balance == old(balance + currentPosition.owner.balance)
    {
      var rentDue := currentPosition.rent[currentPosition.buildingCount];
      balance := balance - rentDue;
      currentPosition.owner.balance := currentPosition.owner.balance + rentDue;
    }

    /** The player wants every position it lands on. */
    function WantsToPurchase(currentPosition: Position): (wants: bool)
      ensures wants
    {
      true
    }

    /** Assumed: the roll moves the player to the supplied board index. */
    method Roll(landing: int)
      requires 0 <= landing < BoardSize
      modifies this`position
      ensures position == landing
    {
      position := landing;
    }

    /** Assumed. */
    method KillPlayer()
      modifies this`playerIsAlive
      ensures !playerIsAlive
    {
      playerIsAlive := false;
    }

    /** Assumed. */
    method IncreaseBalance(amount: int)
      modifies this`balance
      ensures balance == old(balance) + amount
    {
      balance := balance + amount;
    }

    /** Assumed. */
    method DecreaseBalance(amount: int)
      modifies this`balance
      ensures balance == old(balance) - amount
    {
      balance := balance - amount;
    }

    /** Assumed. */
    predicate HasBeenBankrupted()
      reads this
    {
      balance < 0
    }
  }
}
