// The two board enumerations shared by both revisions of the simulator:
// the category of a space and the name of each of the 40 spaces, whose
// ordinal is the space's index on the board.
module Board {

  const BoardSize: nat := 40

  /** The ten categories a board space can belong to. */
  datatype PositionType =
    | go
    | property
    | communitychest
    | tax
    | railroad
    | chance
    | jail
    | utility
    | freeparking
    | gotojail

  /** The categories in declaration order. */
  const PositionTypes: seq<PositionType> :=
    [go, property, communitychest, tax, railroad, chance, jail, utility, freeparking, gotojail]

  /** The category enumeration has exactly ten distinct members. */
  lemma PositionTypesAreTen()
    ensures |PositionTypes| == 10
    ensures forall i, j | 0 <= i < j < |PositionTypes| :: PositionTypes[i] != PositionTypes[j]
    ensures forall t: PositionType :: t in PositionTypes
  {
    forall t: PositionType ensures t in PositionTypes {
      match t
      case go => assert PositionTypes[0] == t;
      case property => assert PositionTypes[1] == t;
      case communitychest => assert PositionTypes[2] == t;
      case tax => assert PositionTypes[3] == t;
      case railroad => assert PositionTypes[4] == t;
      case chance => assert PositionTypes[5] == t;
      case jail => assert PositionTypes[6] == t;
      case utility => assert PositionTypes[7] == t;
      case freeparking => assert PositionTypes[8] == t;
      case gotojail => assert PositionTypes[9] == t;
    }
  }

  /** The names of the board spaces, declared in board order. */
  datatype Name =
    | Go | MediterraneanAvenue | CommunityChest1 | BalticAvenue | IncomeTax
    | ReadingRailroad | OrientalAvenue | Chance1 | VermontAvenue | ConnecticutAvenue
    | Jail | StCharlesPlace | ElectricCompany | StatesAvenue | VirginiaAvenue
    | PennsylvaniaRailroad | StJamesPlace | CommunityChest2 | TennesseeAvenue | NewYorkAvenue
    | FreeParking | KentuckyAvenue | Chance2 | IndianaAvenue | IllnoisAvenue
    | BAndORailroad | AtlaticAvenue | VenturaAvenue | WaterWorks | MarvinGardens
    | GoToJail | PacificAvenue | NorthCarolinaAvenue | CommunityChest3 | PennsylvaniaAvenue
    | Shortline | Chance3 | ParkPlace | LuxuryTax | Boardwalk

  /** The names in declaration order: entry i is the name whose ordinal is i. */
  const BoardOrder: seq<Name> := [
    Go, MediterraneanAvenue, CommunityChest1, BalticAvenue, IncomeTax,
    ReadingRailroad, OrientalAvenue, Chance1, VermontAvenue, ConnecticutAvenue,
    Jail, StCharlesPlace, ElectricCompany, StatesAvenue, VirginiaAvenue,
    PennsylvaniaRailroad, StJamesPlace, CommunityChest2, TennesseeAvenue, NewYorkAvenue,
    FreeParking, KentuckyAvenue, Chance2, IndianaAvenue, IllnoisAvenue,
    BAndORailroad, AtlaticAvenue, VenturaAvenue, WaterWorks, MarvinGardens,
    GoToJail, PacificAvenue, NorthCarolinaAvenue, CommunityChest3, PennsylvaniaAvenue,
    Shortline, Chance3, ParkPlace, LuxuryTax, Boardwalk]

  /** The integer value of a name, as the cast `(int) name` gives it. */
  function Ordinal(n: Name): (i: nat)
    ensures i < BoardSize
    ensures BoardOrder[i] == n
  {
    match n
    case Go => 0 case MediterraneanAvenue => 1 case CommunityChest1 => 2
    case BalticAvenue => 3 case IncomeTax => 4 case ReadingRailroad => 5
    case OrientalAvenue => 6 case Chance1 => 7 case VermontAvenue => 8
    case ConnecticutAvenue => 9 case Jail => 10 case StCharlesPlace => 11
    case ElectricCompany => 12 case StatesAvenue => 13 case VirginiaAvenue => 14
    case PennsylvaniaRailroad => 15 case StJamesPlace => 16 case CommunityChest2 => 17
    case TennesseeAvenue => 18 case NewYorkAvenue => 19 case FreeParking => 20
    case KentuckyAvenue => 21 case Chance2 => 22 case IndianaAvenue => 23
    case IllnoisAvenue => 24 case BAndORailroad => 25 case AtlaticAvenue => 26
    case VenturaAvenue => 27 case WaterWorks => 28 case MarvinGardens => 29
    case GoToJail => 30 case PacificAvenue => 31 case NorthCarolinaAvenue => 32
    case CommunityChest3 => 33 case PennsylvaniaAvenue => 34 case Shortline => 35
    case Chance3 => 36 case ParkPlace => 37 case LuxuryTax => 38
    case Boardwalk => 39
  }

  /** The name enumeration has exactly 40 members, numbered 0..39 without gaps or repeats. */
  lemma NamesAreTheFortySpaces()
    ensures |BoardOrder| == BoardSize
    ensures forall a: Name, b: Name :: Ordinal(a) == Ordinal(b) ==> a == b
  {
    forall a: Name, b: Name | Ordinal(a) == Ordinal(b) ensures a == b {
      calc {
        a;
        BoardOrder[Ordinal(a)];
        BoardOrder[Ordinal(b)];
        b;
      }
    }
  }

  /** The board index of the Jail space, where imprisonment puts a player. */
  const JailIndex: nat := Ordinal(Jail)

  /** The corner spaces sit at the expected indices. */
  lemma CornerOrdinals()
    ensures Ordinal(Go) == 0 && Ordinal(Jail) == 10 && Ordinal(FreeParking) == 20
    ensures Ordinal(GoToJail) == 30 && Ordinal(Boardwalk) == 39
  {
  }
}
