# MonopolySimulator turn engine, in Dafny

This project models the turn engine of MonopolySimulator, a C# program that
plays games of Monopoly between simulated players until only one is left
alive. The model covers two revisions of the engine.

The current revision lives in `DomainModel/`:

- the `GameEngine` dispatch on the type of the space a player lands on;
- rent, and bankruptcy either to a creditor or to the bank;
- tax;
- the jail rules: three doubles in a row, and three tries in prison;
- monopoly detection and the building step, one house per monopoly property per turn;
- turn order, skipping dead players, and the game-over test;
- the `Player` and `Position` mutators;
- the Chance and Community Chest engines: a deck shuffled once and read through a cursor that wraps around;
- the in-place Fisher–Yates `Shuffle` extension;
- `DiceRoll`.

The older root-level revision (`GameState`, `Player`, `Position`) is what
`Program.cs` still instantiates. It is modelled as separate modules.

The modules are:

| module | file | models |
|---|---|---|
| `Board` | Board.dfy | the `PositionType` and `Name` enumerations; a name's value is its board index |
| `Dice` | DiceRoll.dfy | `DiceRoll` |
| `Extensions` | Extensions.dfy | `Shuffle`, proved against a functional reference `Shuffled` |
| `Cards` | Cards.dfy | the card cursor and the calls cards make on undefined `Player` members |
| `Chance`, `CommunityChest` | ChanceEngine.dfy, CommunityChestEngine.dfy | the two card engines |
| `Seating` | Seating.dfy | `GameInProgress` and `GetNextPlayer` as functions on the players' alive flags |
| `Pieces` | Pieces.dfy | `DomainModel/Player.cs` and `DomainModel/Position.cs` |
| `Engine` | GameEngine.dfy | `DomainModel/GameEngine.cs` |
| `LegacyPieces` | LegacyPieces.dfy | the root `Player.cs` and `Position.cs` |
| `Legacy` | GameState.dfy | the root `GameState.cs` |

Objects the source updates in place are Dafny classes:

- The classes are `Player`, `Position`, `DiceRoll`, the card engines and the two game engines.
- Their methods name the fields they change in `modifies` clauses.
- Their `ensures` clauses state the new value of every field they may change, in terms of the old state. The exceptions are `RunSimulationStep` in both revisions and the current revision's `MoveAndResolve`, listed under "## Left out".
- Loops are `for`/`while` loops with invariants. These are the building step, the bankruptcy loops, the birthday collection and the shuffle.
- The LINQ queries `GameInProgress`, `GetNextPlayer` and `GetPositionsFormingMonopoliesForPlayer` are functions.

The invariant a game of the current revision keeps between turns is `Engine.GameEngine.Valid`:

- forty well-formed positions;
- players seated by Id;
- every player on the board;
- building counts in 0..4;
- owners who are players of the game;
- acquisitions that are board positions, each listed once and still owned while the player lives;
- every living player solvent;
- a living active player;
- both card cursors in step with the number of draws.

One turn step (`RunSimulationStep`) preserves it. Only the active player can die in a turn. Whenever the turn completes, it passes to another living player, the one `NextSeat` picks. A turn that draws from a deck never built stops without passing the turn (`DeckNotInitialised`).

The older revision's invariant, `Legacy.GameState.Valid`, is a different one. It holds the board shape, players seated by Id, no buildings anywhere (that revision never builds), owners who are players of the game, acquisitions that are board positions, and a living active player. It says nothing of balances, of where players stand, or of acquisitions being listed once and still owned. That revision has no card decks. Its `RunSimulationStep` preserves it, with the same rules on deaths and on passing the turn. A Go To Jail space on a board with no Jail stops the turn without passing it (`NoJailOnBoard`).

`Seating.NextSeat` is a transcription of `GetNextPlayer`'s LINQ query. `Seating.IsNextLiving` is an independent definition: the first living seat after the current one in cyclic order. Both revisions' `GetNextPlayer` are proved to agree with it.

Predicates transcribe the source's Boolean members without change, and the contracts above use them:

- `HasOwner`, `MaxBuildingsReached`, `CanAffordExpense` and `HasBeenBankrupted`;
- `WantsToPurchasePosition` and `WantsToPurchaseBuildingAtPosition`;
- `LastThreeRollsWereDoubles` and `ShouldBeReleasedFromPrison`.

## Model

| member | source | states |
|---|---|---|
| Board.PositionTypesAreTen | MonopolySimulator/Position.cs:40-52 | The space-type enumeration has exactly ten distinct values, and every value is listed. |
| Board.Ordinal | MonopolySimulator/Position.cs:55-97 | A space name's integer value is a board index below 40, and the space at that index of board order carries that name. |
| Board.NamesAreTheFortySpaces | MonopolySimulator/Position.cs:55-97 | The name enumeration has 40 entries, and no two names share an integer value. |
| Board.CornerOrdinals | MonopolySimulator/Position.cs:55-97 | Go, Jail, Free Parking, Go To Jail and Boardwalk are 0, 10, 20, 30 and 39. |
| Dice.DiceRoll.constructor | MonopolySimulator/DomainModel/DiceRoll.cs:11-14 | A roll that has not been thrown holds the default die values 0. |
| Dice.DiceRoll.Roll | MonopolySimulator/DomainModel/DiceRoll.cs:16-21 | Both dice take the supplied values. `Next(1, 6)` gives 1..5. The same object is returned. |
| Dice.DiceRoll.TotalValue | MonopolySimulator/DomainModel/DiceRoll.cs:23-31 | A thrown roll's total is in 2..10. A double's total is even: twice one die. |
| Extensions.Swap | MonopolySimulator/Utils/Extensions.cs:18-20 | Exactly indices k and n are exchanged. Every other index is kept, and the multiset of elements is unchanged. |
| Extensions.ShuffleFromPermutes | MonopolySimulator/Utils/Extensions.cs:14-21 | Running the loop down from any counter value yields a permutation of the list, of the same length. |
| Extensions.ShuffleFromKeepsPlaced | MonopolySimulator/Utils/Extensions.cs:16-20 | An index at or above n, once placed, is never written again. |
| Extensions.Shuffled | MonopolySimulator/Utils/Extensions.cs:11-22 | The whole shuffle is a permutation of the same length. Lists of length 0 or 1 are untouched. |
| Extensions.Exchange | MonopolySimulator/Utils/Extensions.cs:18-20 | The in-place exchange leaves the array equal to `Swap` of its old contents. |
| Extensions.Shuffle | MonopolySimulator/Utils/Extensions.cs:11-22 | The array ends as `Shuffled` of its old contents, so it is a permutation of them. |
| Cards.MovePointer | MonopolySimulator/DomainModel/ChanceEngine.cs:85-88 | The cursor after a draw is below the deck size. It is the next index, or 0 after the last card. |
| Cards.PointerAfter | MonopolySimulator/DomainModel/ChanceEngine.cs:85-88 | The cursor stays in range after any number of draws. |
| Cards.PointerAfterIsDrawsModCount | MonopolySimulator/DomainModel/ChanceEngine.cs:85-88 | After n draws from a fresh deck, the cursor is n mod the deck size. |
| Cards.ShuffledDeck | MonopolySimulator/DomainModel/ChanceEngine.cs:90-94 | A fresh array holding the enumeration's values, shuffled in place. |
| Chance.ChanceDeckIsComplete | MonopolySimulator/DomainModel/ChanceEngine.cs:26-77 | The deck lists sixteen distinct cards and every card value. |
| Chance.ChanceKindDecidesBalance | MonopolySimulator/DomainModel/ChanceEngine.cs:26-77 | Movement and other cards never touch the balance. A card credits exactly when it is a receipt. Taxes and fines never credit, and they debit a player with buildings. |
| Chance.ChanceCardsAllActOnThePlayer | MonopolySimulator/DomainModel/ChanceEngine.cs:26-77 | For a player with buildings, only the go-to-jail card neither changes the balance nor makes a request. |
| Chance.ChanceEngine.constructor | MonopolySimulator/DomainModel/ChanceEngine.cs:15-19 | The cursor is at 0 and the deck is not built yet. |
| Chance.ChanceEngine.Initialise | MonopolySimulator/DomainModel/ChanceEngine.cs:90-94 | The deck is the shuffle of all sixteen card values, so it is a permutation of them. |
| Chance.ChanceEngine.Simulate | MonopolySimulator/DomainModel/ChanceEngine.cs:21-83 | The n-th draw reads card n mod 16 and never modifies the deck. The balance changes by exactly the card's amount, and repairs cost 25/100 or 40/115 per house/hotel. Only go-to-jail imprisons. Moves and the jail-free card are returned as requests. The cursor advances cyclically. |
| Chance.ChanceEngine.ApplyCard | MonopolySimulator/DomainModel/ChanceEngine.cs:24-80 | The switch on the drawn card changes the balance by exactly the card's amount. Fines are 150, 20 and 15; receipts are 150, 100 and 50; repairs are 25/100 and street repairs 40/115 per house/hotel. Only go-to-jail imprisons, and the jail-free card changes nothing else. |
| Chance.ChanceEngine.MovePointer | MonopolySimulator/DomainModel/ChanceEngine.cs:85-88 | The cursor becomes (old + 1) mod the deck size. |
| CommunityChest.CommunityChestDeckIsComplete | MonopolySimulator/DomainModel/CommunityChestEngine.cs:26-77 | The deck lists sixteen distinct cards and every card value. |
| CommunityChest.BirthdayDebtors | MonopolySimulator/DomainModel/CommunityChestEngine.cs:66-71 | The debtors are exactly the living players other than the active one. There are no more of them than players. |
| CommunityChest.BirthdayDebtorsInSeatingOrder | MonopolySimulator/DomainModel/CommunityChestEngine.cs:66-71 | When the players are seated by Id, the debtors come in strictly increasing Id order: in seating order, none twice. |
| CommunityChest.CommunityChestKindDecidesBalance | MonopolySimulator/DomainModel/CommunityChestEngine.cs:26-77 | Fines always debit. Receipts other than the birthday always credit. Of the moves, only advance-to-Go pays. No card moves more than 200. |
| CommunityChest.CommunityChestEngine.constructor | MonopolySimulator/DomainModel/CommunityChestEngine.cs:15-19 | The cursor is at 0 and the deck is not built yet. |
| CommunityChest.CommunityChestEngine.Initialise | MonopolySimulator/DomainModel/CommunityChestEngine.cs:90-94 | The deck is the shuffle of all sixteen card values. |
| CommunityChest.CommunityChestEngine.Simulate | MonopolySimulator/DomainModel/CommunityChestEngine.cs:21-83 | The n-th draw reads card n mod 16. Advance-to-Go credits 200. Fines are 100, 50, 50 and 10. Receipts are 200, 200 (annuity), 100, 50, 25, 20 and 10. Only go-to-jail imprisons. The birthday requests `PayDebt(active, 10)` from every other living player. The cursor advances cyclically. |
| CommunityChest.CommunityChestEngine.ApplyCard | MonopolySimulator/DomainModel/CommunityChestEngine.cs:24-80 | The switch on the drawn card changes the balance by exactly the card's amount. Only go-to-jail imprisons. The birthday card requests `PayDebt` from exactly the other living players. |
| CommunityChest.CommunityChestEngine.CollectBirthdayDebtors | MonopolySimulator/DomainModel/CommunityChestEngine.cs:66-71 | The loop over the players collects exactly `BirthdayDebtors`. |
| CommunityChest.CommunityChestEngine.MovePointer | MonopolySimulator/DomainModel/CommunityChestEngine.cs:85-88 | The cursor becomes (old + 1) mod the deck size. |
| Seating.GameInProgressIffTwoAlive | MonopolySimulator/DomainModel/GameEngine.cs:165-168 | More than one player is alive exactly when two different seats hold living players. |
| Seating.Remaining | MonopolySimulator/DomainModel/GameEngine.cs:172 | The players kept in the rotation are exactly the living ones and the current one, in increasing seat order. |
| Seating.NextSeatIsNextLiving | MonopolySimulator/DomainModel/GameEngine.cs:170-175 | The query picks the first living seat after the current one, cyclically. It picks the current seat only when no other seat holds a living player. |
| Seating.NextLivingIsUnique | MonopolySimulator/DomainModel/GameEngine.cs:170-175 | At most one seat is the next living seat. |
| Seating.InProgressNextIsAnotherLivingPlayer | MonopolySimulator/DomainModel/GameEngine.cs:165-175 | While the game is in progress, the next player is another living player. |
| Seating.NextOfLivingIsLiving | MonopolySimulator/DomainModel/GameEngine.cs:170-175 | A living player is never followed by a dead one. |
| Seating.NextIsLivingWhenAnotherLives | MonopolySimulator/DomainModel/GameEngine.cs:170-175 | When another seat holds a living player, the next player is another living player, even if the current one is dead. |
| Pieces.WrapOnBoard | MonopolySimulator/DomainModel/Player.cs:60-63 | C#'s `% 40` keeps a non-negative index in 0..39 and leaves an index already on the board unchanged. |
| Pieces.RecentStart | MonopolySimulator/DomainModel/Player.cs:55-58 | `Reverse().Take(3)` keeps the min(n, 3) most recent rolls. |
| Pieces.Position.constructor | MonopolySimulator/DomainModel/Position.cs:8-18 | A position takes the board's data, with no buildings and no owner. |
| Pieces.Position.AddBuilding | MonopolySimulator/DomainModel/Position.cs:30-33 | The count rises by exactly 1 whatever the argument. The maximum is then reached exactly when the count was at least 4. |
| Pieces.Position.DemolishBuildings | MonopolySimulator/DomainModel/Position.cs:35-38 | The count becomes 0. On a position without buildings it changes nothing, so it is idempotent. |
| Pieces.Position.Repossess | MonopolySimulator/DomainModel/Position.cs:40-43 | The owner is cleared, so `HasOwner` is false. |
| Pieces.Position.AssignNewOwner | MonopolySimulator/DomainModel/Position.cs:45-48 | The owner is the given player, so `HasOwner` is true. |
| Pieces.Player.CreateNew | MonopolySimulator/DomainModel/Player.cs:10-19 | A new player is on Go with the starting balance, not imprisoned, alive and owning nothing. |
| Pieces.Player.PayRent | MonopolySimulator/DomainModel/Player.cs:30-35 | The rent is `rent[BuildingCount]`. The payer loses it and the owner gains it. The sum of the two balances is kept, with no floor at zero. |
| Pieces.Player.RollAndUpdatePosition | MonopolySimulator/DomainModel/Player.cs:42-53 | An imprisoned player is untouched. Otherwise exactly one roll is appended. If the most recent rolls are all doubles (up to three of them, so even one double roll counts), the player is jailed instead of moving. Otherwise it moves by the total. |
| Pieces.Player.MoveForward | MonopolySimulator/DomainModel/Player.cs:60-63 | The new index is (old + v) under C#'s `% 40`. No bonus is paid for passing Go. |
| Pieces.Player.RollInPrison | MonopolySimulator/DomainModel/Player.cs:65-69 | Exactly one fresh roll with the supplied dice is appended to the in-prison rolls. |
| Pieces.Player.IncreaseBalance | MonopolySimulator/DomainModel/Player.cs:76-79 | The balance rises by exactly the amount. |
| Pieces.Player.DecreaseBalance | MonopolySimulator/DomainModel/Player.cs:81-84 | The balance falls by exactly the amount. |
| Pieces.Player.KillPlayer | MonopolySimulator/DomainModel/Player.cs:91-94 | The player is no longer alive. |
| Pieces.Player.PurchasePosition | MonopolySimulator/DomainModel/Player.cs:106-110 | The position is appended to the acquisitions and its owner becomes this player. The balance is not charged. |
| Pieces.Player.Imprison | MonopolySimulator/DomainModel/Player.cs:112-116 | The player is imprisoned on the Jail index (10). Nothing else changes. |
| Pieces.Player.MoveToPositionIndex | MonopolySimulator/DomainModel/Player.cs:118-121 | The index becomes the given one. |
| Pieces.Player.ReleaseFromPrison | MonopolySimulator/DomainModel/Player.cs:128-133 | The player is freed and moves by the last in-prison roll's total. The in-prison rolls are emptied. |
| Engine.GameEngine.constructor | MonopolySimulator/DomainModel/GameEngine.cs:19-28 | New players are seated by Id and the first one starts. A non-negative balance on a fresh forty-space board gives a valid game. |
| Engine.GameEngine.PreparePlayers | MonopolySimulator/DomainModel/GameEngine.cs:30-33 | `playerCount` new players are created, player i with Id i, each with the starting balance. |
| Engine.GameEngine.GameInProgress | MonopolySimulator/DomainModel/GameEngine.cs:165-168 | True exactly when two different players are alive. |
| Engine.GameEngine.GetNextPlayer | MonopolySimulator/DomainModel/GameEngine.cs:170-175 | The next player is the first living player after the current one in cyclic seating order, or the current one when nobody else lives. Dead players stay seated. |
| Engine.GameEngine.MonopolyPositions | MonopolySimulator/DomainModel/GameEngine.cs:132-138 | The result keeps exactly the listed property positions whose whole group is owned by the player's Id. It is duplicate-free when the list is, and keeps the list's order: a subsequence of it. |
| Engine.GameEngine.GetPositionsFormingMonopoliesForPlayer | MonopolySimulator/DomainModel/GameEngine.cs:132-138 | Every monopoly is a property in the engine's active player's acquisitions, and every board position of its group is owned by the given Id. Every such property is included, in the order of acquisition. |
| Engine.GameEngine.SimulatePlayerRealEstateDecision | MonopolySimulator/DomainModel/GameEngine.cs:120-130 | An eligible monopoly is one the player can afford, with count at most 3 and below the maximum. Each gains exactly one building and costs exactly its house price, in order. Every other position keeps its count. Counts stay within 0..4 and the invariant is kept. |
| Engine.BuildOnMonopolies | MonopolySimulator/DomainModel/GameEngine.cs:123-129 | The final balance and building counts are exactly those of the reference `BalanceBefore`/`BuildsAt`, which decide one monopoly at a time in order. Counts stay in 0..4. |
| Engine.BuildInOrder | MonopolySimulator/DomainModel/GameEngine.cs:123-129 | The `foreach` loop buys a house on the i-th monopoly exactly when the plan says so, charging exactly its house price. |
| Engine.BuildingKeepsBalanceNonNegative | MonopolySimulator/DomainModel/GameEngine.cs:125-128 | The building step never makes a non-negative balance negative. It never raises the balance. |
| Engine.GameEngine.SimulateBankruptcyByBanker | MonopolySimulator/DomainModel/GameEngine.cs:147-158 | Every listed position is razed and loses its owner, then the player is killed. No other position changes. |
| Engine.RazeAndRepossess | MonopolySimulator/DomainModel/GameEngine.cs:149-153 | Every listed position ends with no buildings and no owner. |
| Engine.GameEngine.SimulateBankruptcyByPlayer | MonopolySimulator/DomainModel/GameEngine.cs:194-202 | Every listed position is razed and passes to the creditor, then the payer is killed. No other position changes. |
| Engine.RazeAndTransfer | MonopolySimulator/DomainModel/GameEngine.cs:196-200 | Every listed position ends with no buildings and owned by the creditor. |
| Engine.GameEngine.SimulateLandOnTax | MonopolySimulator/DomainModel/GameEngine.cs:140-145 | The balance falls by exactly the cost. Bankruptcy to the bank follows exactly when it is then negative. |
| Engine.GameEngine.SimulateLandOnProperty | MonopolySimulator/DomainModel/GameEngine.cs:177-192 | An unowned property is acquired, without charge, exactly when affordable. Otherwise nothing changes. An owned one pays rent to the owner, with the sum of the two balances kept. On a negative balance the payer's positions are razed and given to the owner, and the payer dies. |
| Engine.GameEngine.SimulateLandOnChance | MonopolySimulator/DomainModel/GameEngine.cs:91-96 | The drawn card acts on the player, and bankruptcy to the bank follows exactly when the balance is negative. |
| Engine.GameEngine.SimulateCommunityChest | MonopolySimulator/DomainModel/GameEngine.cs:98-103 | The drawn card acts on the player, and bankruptcy to the bank follows exactly when the balance is negative. |
| Engine.GameEngine.SimulateLandOnJail | MonopolySimulator/DomainModel/GameEngine.cs:105-113 | A prisoner rolls in prison. The third roll there, or a double, releases them, and they move by that roll. Otherwise they stay imprisoned where they were, and the new roll, showing the given dice, is appended to their prison rolls. A visitor is untouched. |
| Engine.GameEngine.SimulateLandOnGoToJail | MonopolySimulator/DomainModel/GameEngine.cs:115-118 | The player is imprisoned on the Jail index. |
| Engine.GameEngine.RollActivePlayer | MonopolySimulator/DomainModel/GameEngine.cs:39-40 | A prisoner's rolls and index are untouched. Otherwise exactly one fresh roll with the two dice is appended. The player is then imprisoned exactly when it was already or its recent rolls are all doubles. A player sent to jail stands on index 10, and any other moves on by the total under `% 40`. |
| Engine.GameEngine.ResolveSpace | MonopolySimulator/DomainModel/GameEngine.cs:42-72 | One clause per space type. Go, railroads, utilities and free parking leave every player, position and deck unchanged. Property, tax, jail and Go To Jail have exactly their handler's effect, and nothing else changes. Card spaces draw as `ResolveCardSpace` states. Only the active player can die. |
| Engine.GameEngine.ResolveCardSpace | MonopolySimulator/DomainModel/GameEngine.cs:49-59 | With the deck built, the card at `drawn % 16` is drawn. Its exact balance change and request apply, and only go-to-jail moves the player. Bankruptcy to the bank follows exactly when the balance is negative. The other deck is untouched. With the deck never built, the turn stops and nothing changes. |
| Engine.GameEngine.MoveAndResolve | MonopolySimulator/DomainModel/GameEngine.cs:39-72 | The dice were thrown: a prisoner's rolls are untouched, any other player gets one fresh roll with the two dice. The throw lands on a board index. The invariant is kept and only the active player can die. A turn stopped at an unbuilt deck leaves the player where the throw put it. |
| Engine.GameEngine.EndTurn | MonopolySimulator/DomainModel/GameEngine.cs:74-76 | The mover's balance and the counts on its monopolies are those of the reference `BalanceBefore`/`BuildsAt`. Every other position keeps its count. The turn then passes to `NextSeat`, a different living player, and the game is valid. |
| Engine.GameEngine.PassTurn | MonopolySimulator/DomainModel/GameEngine.cs:76 | The active player becomes `NextSeat` of the old one: another living player. |
| Engine.GameEngine.RunSimulationStep | MonopolySimulator/DomainModel/GameEngine.cs:37-77 | One pass of the loop keeps the invariant. Only the active player can die. The turn passes to the next living player, who is not the one who moved. |
| LegacyPieces.Position.constructor | MonopolySimulator/Position.cs:8-20 | A position takes the board's data, with no buildings and no owner. |
| LegacyPieces.Position.AddBuilding | MonopolySimulator/Position.cs:32-35 | The count rises by exactly 1 whatever the argument. The maximum (5) is then reached exactly when the count was at least 4. |
| LegacyPieces.Player.PayRent | MonopolySimulator/Player.cs:15-20 | The rent is `rent[buildingCount]`. The payer loses it and the owner gains it, so their sum is conserved. There is no floor at zero. |
| LegacyPieces.Player.WantsToPurchase | MonopolySimulator/Player.cs:22-25 | Always true. |
| LegacyPieces.Player.CreateNew | MonopolySimulator/GameState.cs:26 | Assumed: a new player on Go with the starting balance, alive, owning nothing. |
| LegacyPieces.Player.Roll | MonopolySimulator/GameState.cs:33-34 | Assumed: the player lands on the supplied board index. |
| LegacyPieces.Player.KillPlayer | MonopolySimulator/GameState.cs:90 | Assumed: the player is no longer alive. |
| LegacyPieces.Player.IncreaseBalance | MonopolySimulator/GameState.cs:101 | Assumed: the balance rises by exactly the amount. |
| LegacyPieces.Player.DecreaseBalance | MonopolySimulator/GameState.cs:83 | Assumed: the balance falls by exactly the amount. |
| Legacy.FirstIndexNamed | MonopolySimulator/GameState.cs:61 | The Jail lookup finds an index exactly when some position is named Jail, and it is the first such index. |
| Legacy.GameState.constructor | MonopolySimulator/GameState.cs:16-22 | New players are seated by Id and the first one starts. A fresh forty-space board gives a valid game. |
| Legacy.GameState.PreparePlayers | MonopolySimulator/GameState.cs:24-27 | `playerCount` new players are created, player i with Id i, each with the starting balance. |
| Legacy.GameState.GameInProgress | MonopolySimulator/GameState.cs:104-107 | True exactly when two different players are alive. |
| Legacy.GameState.GetNextPlayer | MonopolySimulator/GameState.cs:109-114 | The next player is the first living player after the current one in cyclic order, or the current one if alone. |
| Legacy.GameState.SimulatePassingGo | MonopolySimulator/GameState.cs:99-102 | The player is paid exactly 200. |
| Legacy.GameState.SimulateLandOnTax | MonopolySimulator/GameState.cs:81-86 | The balance falls by exactly the cost. Bankruptcy to the bank follows exactly when it is then negative. |
| Legacy.GameState.SimulateBankruptcyByBanker | MonopolySimulator/GameState.cs:88-97 | The player is killed, then every listed position gets no buildings and no owner. Nothing else changes. |
| Legacy.RazeAndRepossess | MonopolySimulator/GameState.cs:91-95 | Every listed position ends with no buildings and no owner. |
| Legacy.GameState.SimulateLandOnVacantProperty | MonopolySimulator/GameState.cs:116-139 | A vacant property is acquired exactly when balance >= cost, and nothing is deducted. The auction branch is never taken. An owned one charges rent, with the sum kept. A negative balance kills the payer and gives the payer's positions, razed, to the owner. |
| Legacy.GameState.SimulateBankruptcyByPlayer | MonopolySimulator/GameState.cs:141-149 | The payer is killed, then every listed position is razed and passes to the creditor. |
| Legacy.RazeAndTransfer | MonopolySimulator/GameState.cs:144-148 | Every listed position ends with no buildings and owned by the creditor. |
| Legacy.GameState.ResolveSpace | MonopolySimulator/GameState.cs:36-65 | One clause per space type. Go pays exactly 200 and changes nothing else. A property is bought or charges rent as `SimulateLandOnVacantProperty` states. Tax is paid, with bankruptcy to the bank exactly when the balance is negative. Go To Jail imprisons the player on the first position named Jail, or ends the turn when there is none. Card spaces, railroads, jail, utilities and free parking change nothing. Only Go To Jail moves the player. |
| Legacy.GameState.MoveAndResolve | MonopolySimulator/GameState.cs:33-65 | The space at the landing index has had exactly the effect `ResolveSpace` states, with the player standing on that index. The invariant is kept and only the active player can die. |
| Legacy.GameState.PassTurn | MonopolySimulator/GameState.cs:67 | The active player becomes `NextSeat` of the old one: another living player. |
| Legacy.GameState.RunSimulationStep | MonopolySimulator/GameState.cs:31-67 | One pass of the loop keeps the invariant, and only the player who moved can die. The turn passes to the next living player by seat, who is not the one who moved. When it stops without passing the turn, the landing space was Go To Jail and the board has no Jail. |

## Left out

- Randomness is a supplied input. `System.Random` is replaced by supplied values: die values in 1..5, the shuffle's draws (`draws[m]` in 0..m) and, in the older revision, the index a roll lands on. Nothing is said about uniformity.
- Reading the board from `board.json` is not modelled. The board is a constructor parameter, and a valid game needs forty well-formed positions without owners or buildings.
- Console output and `Program.cs` are not modelled.
- The `while (GameInProgress(...))` loop is one step. `RunSimulationStep` is one pass of its body, under the loop's condition.
- `MoveToPositionByName`, `MoveBackward`, `RecieveGetOutOfJailFreeCard` and `PayDebt` are not defined by the current `Player`. A card returns a call to one of them, with its arguments, as a `Request` value, and the model does not guess what it does.
- `NumberOfHousesBought` and `NumberOfHotelsBought` are also undefined there. They are inputs of the Chance engine.
- The older revision's `Player` does not define `CreateNew`, `Roll`, `KillPlayer`, `IncreaseBalance`, `DecreaseBalance` and `HasBeenBankrupted`. The model assumes they behave like their namesakes in the current revision. `Roll` takes the landing index instead of a random source.
- LegacyPieces.Player.Roll: does not record the roll in the older player's `Rolls` queue. Nothing in that revision reads the queue except the final report.
- The card enumerations' own files are not available. Each deck's card order is the order of its `switch` cases.
- `Initialise` is never called by the engine code; the turn is modelled anyway. A card space whose deck was never built would throw at `_cards[...]`. The model ends the turn there with the outcome `DeckNotInitialised`, with nothing changed.
- The older revision's Go To Jail lookup throws when no position is named Jail, after the player was already imprisoned. The model reports this as the outcome `NoJailOnBoard`.
- `SimulateAuction` is an empty method in both revisions, as in the source. With no `modifies` clause it changes nothing, so it has no contract and no row.
- A null `group` of a position is modelled as an empty sequence. Monopoly detection skips such positions, as the null test does.
- Both constructors require at least one player, since `_players[0]` throws otherwise.
- The `default: throw` branches of the dispatch switches are unreachable, because the space-type datatype has exactly ten cases.
- The current revision's `SimulatePassingGo` (`DomainModel/GameEngine.cs:160-163`) is never called: landing on Go does nothing there. It is not modelled.
- CommunityChest.CommunityChestEngine.Simulate: the birthday request lists debtors as they are before any `PayDebt` runs. Whether a debt can kill a debtor depends on the undefined `PayDebt`.
- The annuity card credits 200 as written, although its name says 100.
- MoveAndResolve, in the current revision (`Engine.GameEngine.MoveAndResolve`): its contract states the throw and that the game stays valid, but not what the landed space then did. That effect is stated by `ResolveSpace` relative to the state after the throw. Carrying it across the throw takes the verifier far beyond the resource limit.
- RunSimulationStep, in the current revision (`Engine.GameEngine.RunSimulationStep`): it states the invariant, the deaths and the turn passing. The landed space's effect and the building step are stated by `ResolveSpace` and `EndTurn`, relative to the state each of them starts from, and are not carried into this contract, for the same reason.
- RunSimulationStep, in the older revision (`Legacy.GameState.RunSimulationStep`): it states the invariant, the deaths, the turn passing and the Go To Jail stop. The landed space's effect is stated by `MoveAndResolve` against the state before the move, and is not carried across the turn pass, for the same reason.
- Integers are unbounded. The source's 32-bit `int` never comes near overflow with the board's amounts, and wrap-around is not modelled.
