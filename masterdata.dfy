/**
  Read-only reference data that the calculator consults: the master equipment
  table, the master ship table, and the live ships of a fleet. Only the fields
  the calculator actually reads are kept. A lookup of an identifier that is not
  a key of the table plays the role of the `null` that the game database
  returns for an unknown identifier.
 */
module MasterData {

  datatype Option<+T> = None | Some(value: T)
  {
    function GetOr(default: T): T
    {
      match this
      case Some(v) => v
      case None => default
    }
  }

  /** A master equipment record: its category code (`EquipmentType[2]`) and its anti-air stat (`AA`). */
  datatype Equip = Equip(category: int, aa: int)

  /**
    A master ship record: its ship type, the equipment it is given by default
    (absent for ships that have none on record) and its aircraft capacity per slot.
    Aircraft counts are never negative.
   */
  datatype ShipMaster = ShipMaster(shipType: int, defaultSlot: Option<seq<int>>, aircraft: seq<nat>)

  /** A live ship: the master ids of its equipped items and its current aircraft count per slot. */
  datatype ShipInstance = ShipInstance(slotMaster: seq<int>, aircraft: seq<nat>)

  /** A live fleet: each position holds a ship or is empty. */
  datatype Fleet = Fleet(membersInstance: seq<Option<ShipInstance>>)

  type EquipTable = map<int, Equip>
  type ShipTable = map<int, ShipMaster>

  // Equipment category codes (the third entry of an equipment's type list).
  const SmallMainGun := 1
  const MediumMainGun := 2
  const LargeMainGun := 3
  const SecondaryGun := 4
  const Torpedo := 5
  const CarrierFighter := 6
  const CarrierDiveBomber := 7
  const CarrierTorpedoBomber := 8
  const ReconSeaplane := 10
  const SeaplaneBomber := 11
  const SmallRadar := 12
  const LargeRadar := 13
  const ArmorPiercingShell := 19
  const SubmarineTorpedo := 32

  /** Categories that take part in air superiority. */
  const FighterCategories: set<int> := {CarrierFighter, CarrierDiveBomber, CarrierTorpedoBomber, SeaplaneBomber}
  const MainGunCategories: set<int> := {SmallMainGun, MediumMainGun, LargeMainGun}
  const SecondaryGunCategories: set<int> := {SecondaryGun}
  const ReconCategories: set<int> := {ReconSeaplane, SeaplaneBomber}
  const RadarCategories: set<int> := {SmallRadar, LargeRadar}
  const ArmorPiercingCategories: set<int> := {ArmorPiercingShell}
  const TorpedoCategories: set<int> := {Torpedo, SubmarineTorpedo}

  // Ship type codes.
  const AviationCruiser := 6
  const LightCarrier := 7
  const AviationBattleship := 10
  const StandardCarrier := 11
  const Submarine := 13
  const SubmarineCarrier := 14
  const SeaplaneTender := 16
  const AmphibiousAssaultShip := 17
  const ArmoredCarrier := 18

  const CarrierTypes: set<int> := {LightCarrier, StandardCarrier, ArmoredCarrier}
  const SubmarineTypes: set<int> := {Submarine, SubmarineCarrier}
  /** Surface ships that attack a submarine with aircraft rather than depth charges. */
  const AntiSubAirTypes: set<int> := {AviationCruiser, AviationBattleship, SeaplaneTender, AmphibiousAssaultShip}

  /** True when `id` resolves in the equipment table to an item whose category is in `cats`. */
  predicate HasCategory(equips: EquipTable, id: int, cats: set<int>)
  {
    id in equips && equips[id].category in cats
  }

  /** Every anti-air stat in the table is non-negative. */
  ghost predicate AANonNegative(equips: EquipTable)
  {
    forall id :: id in equips ==> equips[id].aa >= 0
  }
}
