// The players and the board positions of the current revision of the
// simulator. A position refers to its owner and a player lists the positions
// it has acquired, so the two classes live in one module.
module Pieces {
  import opened Board
  import opened Dice

  /**
   * C#'s `x % 40`: the remainder takes the sign of the dividend, so a negative
   * index would stay negative rather than wrap to the end of the board.
   */
  function WrapOnBoard(x: int): (r: int)
    ensures x >= 0 ==> 0 <= r < BoardSize
    ensures x < 0 ==> -(BoardSize as int) < r <= 0
    ensures -(BoardSize as int) < x < BoardSize ==> r == x
  {
    if x >= 0 then x % 40 else -((-x) % 40)
  }

  /** The index of the oldest of the (up to three) most recent rolls that `Reverse().Take(3)` keeps. */
  function RecentStart(n: nat): (k: nat)
    ensures k <= n && n - k == if n < 3 then n else 3
  {
    if n < 3 then 0 else n - 3
  }

  /** A space of the board together with its mutable building count and owner. */
  class Position {
    var buildingCount: int
    const name: Name
    const kind: PositionType
    var owner: Player?
    const corner: bool
    const cost: int
    const color: string
    const rent: seq<int>
    const group: seq<int>
    const house: int

    /** A position as the board definition describes it: no buildings and no owner. */
    constructor (name: Name, kind: PositionType, corner: bool, cost: int, color: string,
                 rent: seq<int>, group: seq<int>, house: int)
      ensures this.name == name && this.kind == kind && this.corner == corner
      ensures this.cost == cost && this.color == color && this.rent == rent
      ensures this.group == group && this.house == house
      ensures buildingCount == 0 && owner == null
    {
      this.name, this.kind, this.corner, this.cost := name, kind, corner, cost;
      this.color, this.rent, this.group, this.house := color, rent, group, house;
      buildingCount, owner := 0, null;
    }

    predicate HasOwner()
      reads this
    {
      owner != null
    }

    predicate MaxBuildingsReached()
      reads this
    {
      buildingCount >= 5
    }

    /** The rent a visitor pays: the schedule entry for the current building count. */
    function RentDue(): int
      reads this
      requires 0 <= buildingCount < |rent|
    {
      rent[buildingCount]
    }

    /** Adds one building whatever the argument says. */
    method AddBuilding(i: int)
      modifies this`buildingCount
      ensures buildingCount == old(buildingCount) + 1
      ensures MaxBuildingsReached() <==> old(buildingCount) >= 4
    {
      buildingCount := buildingCount + 1;
    }

    /** Razes every building; a second call changes nothing more. */
    method DemolishBuildings()
      modifies this`buildingCount
      ensures buildingCount == 0 && !MaxBuildingsReached()
      ensures old(buildingCount) == 0 ==> unchanged(this)
    {
      buildingCount := 0;
    }

    method Repossess()
      modifies this`owner
      ensures owner == null && !HasOwner()
    {
      owner := null;
    }

    method AssignNewOwner(activePlayer: Player)
      modifies this`owner
      ensures owner == activePlayer && HasOwner()
    {
      owner := activePlayer;
    }
  }

  class Player {
    const id: int
    var positionIndex: int
    var rolls: seq<DiceRoll>
    var rollsInPrison: seq<DiceRoll>
    var positionsAcquired: seq<Position>
    var balance: int
    var imprisoned: bool
    var playerIsAlive: bool

    /** A new player on Go with the starting balance, free, alive and owning nothing. */
    constructor CreateNew(id: int, startingBalance: int)
      ensures this.id == id && balance == startingBalance && positionIndex == 0
      ensures rolls == [] && rollsInPrison == [] && positionsAcquired == []
      ensures !imprisoned && playerIsAlive
    {
      this.id := id;
      balance := startingBalance;
      positionIndex := 0;
      rolls, rollsInPrison, positionsAcquired := [], [], [];
      imprisoned, playerIsAlive := false, true;
    }

    /**
     * Pays the rent of the position to its owner. The payer loses and the
     * owner gains exactly the rent, with no floor at zero, so the sum of the
     * two balances is unchanged.
     */
    method PayRent(currentPosition: Position)
      requires currentPosition.owner != null
      requires 0 <= currentPosition.buildingCount < |currentPosition.rent|
      modifies this`balance, currentPosition.owner`balance
      ensures currentPosition.owner != this ==>
        balance == old(balance) - currentPosition.RentDue() &&
        currentPosition.owner.balance == old(currentPosition.owner.balance) + currentPosition.RentDue()
      ensures currentPosition.owner == this ==> balance == old(balance)
      ensures balance + currentPosition.owner.balance == old(balance + currentPosition.owner.balance)
    {
      var rentDue := currentPosition.rent[currentPosition.buildingCount];
      DecreaseBalance(rentDue);
      currentPosition.owner.IncreaseBalance(rentDue);
    }

    predicate WantsToPurchasePosition(currentPosition: Position)
      reads this
    {
      CanAffordExpense(currentPosition.cost) && true
    }

    /** The most recent rolls, up to three of them, are all doubles. */
    predicate LastThreeRollsWereDoubles()
      reads this`rolls, rolls
    {
      forall i | RecentStart(|rolls|) <= i < |rolls| :: rolls[i].IsADouble()
    }

    /**
     * Unless imprisoned, throws the dice (values supplied) and records the
     * roll; if the recent rolls are all doubles the player goes to jail,
     * otherwise it moves forward by the roll's total.
     */
    method RollAndUpdatePosition(v1: int, v2: int)
      requires IsDieValue(v1) && IsDieValue(v2)
      modifies this`rolls, this`imprisoned, this`positionIndex
      ensures old(imprisoned) ==> unchanged(this)
      ensures !old(imprisoned) ==>
        && |rolls| == |old(rolls)| + 1
        && rolls[..|old(rolls)|] == old(rolls)
        && fresh(rolls[|old(rolls)|])
        && rolls[|old(rolls)|].dieValue1 == v1 && rolls[|old(rolls)|].dieValue2 == v2
      ensures !old(imprisoned) && LastThreeRollsWereDoubles() ==>
        imprisoned && positionIndex == JailIndex
      ensures !old(imprisoned) && !LastThreeRollsWereDoubles() ==>
        !imprisoned && positionIndex == WrapOnBoard(old(positionIndex) + v1 + v2)
    {
      if !imprisoned {
        var roll := new DiceRoll();
        roll := roll.Roll(v1, v2);
        rolls := rolls + [roll];
        if LastThreeRollsWereDoubles() {
          Imprison();
        } else {
          MoveForward(roll.TotalValue());
        }
      }
    }

    /** Moves forward on the 40-space board, wrapping past Go without any bonus. */
    method MoveForward(rollValue: int)
      modifies this`positionIndex
      ensures positionIndex == WrapOnBoard(old(positionIndex) + rollValue)
    {
      positionIndex := WrapOnBoard(positionIndex + rollValue);
    }

    /** Throws the dice in prison (values supplied) and records the roll. */
    method RollInPrison(v1: int, v2: int)
      requires IsDieValue(v1) && IsDieValue(v2)
      modifies this`rollsInPrison
      ensures |rollsInPrison| == |old(rollsInPrison)| + 1
      ensures rollsInPrison[..|old(rollsInPrison)|] == old(rollsInPrison)
      ensures fresh(rollsInPrison[|old(rollsInPrison)|])
      ensures rollsInPrison[|old(rollsInPrison)|].dieValue1 == v1
      ensures rollsInPrison[|old(rollsInPrison)|].dieValue2 == v2
    {
      var roll := new DiceRoll();
      roll := roll.Roll(v1, v2);
      rollsInPrison := rollsInPrison + [roll];
    }

    method IncreaseBalance(amount: int)
      modifies this`balance
      ensures balance == old(balance) + amount
    {
      balance := balance + amount;
    }

    method DecreaseBalance(amount: int)
      modifies this`balance
      ensures balance == old(balance) - amount
    {
      balance := balance - amount;
    }

    predicate HasBeenBankrupted()
      reads this
    {
      balance < 0
    }

    method KillPlayer()
      modifies this`playerIsAlive
      ensures !playerIsAlive
    {
      playerIsAlive := false;
    }

    predicate WantsToPurchaseBuildingAtPosition(property: Position)
      reads this, property
    {
      CanAffordExpense(property.house) && property.buildingCount <= 3
    }

    predicate CanAffordExpense(amount: int)
      reads this
    {
      balance - amount >= 0
    }

    /** Takes the position into this player's holdings without paying its price. */
    method PurchasePosition(currentPosition: Position)
      modifies this`positionsAcquired, currentPosition`owner
      ensures positionsAcquired == old(positionsAcquired) + [currentPosition]
      ensures currentPosition.owner == this
    {
      positionsAcquired := positionsAcquired + [currentPosition];
      currentPosition.AssignNewOwner(this);
    }

    /** Sends the player to the Jail space; nothing else changes. */
    method Imprison()
      modifies this`imprisoned, this`positionIndex
      ensures imprisoned && positionIndex == JailIndex
    {
      imprisoned := true;
      MoveToPositionIndex(Ordinal(Jail));
    }

    method MoveToPositionIndex(positionIndex: int)
      modifies this`positionIndex
      ensures this.positionIndex == positionIndex
    {
      this.positionIndex := positionIndex;
    }

    /** The third roll in prison, or a double, releases the player. */
    predicate ShouldBeReleasedFromPrison()
      requires |rollsInPrison| > 0
      reads this, rollsInPrison
    {
      |rollsInPrison| == 3 || rollsInPrison[|rollsInPrison| - 1].IsADouble()
    }

    /** Frees the player, who moves on by the last roll made in prison. */
    method ReleaseFromPrison()
      requires |rollsInPrison| > 0
      modifies this`imprisoned, this`positionIndex, this`rollsInPrison
      ensures !imprisoned && rollsInPrison == []
      ensures positionIndex ==
        WrapOnBoard(old(positionIndex) + old(rollsInPrison[|rollsInPrison| - 1].TotalValue()))
    {
      imprisoned := false;
      MoveForward(rollsInPrison[|rollsInPrison| - 1].TotalValue());
      rollsInPrison := [];
    }
  }
}
