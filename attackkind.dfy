/**
  Attack kind classification for day and night combat.

  Kind codes:
    -1 no slot data
     0 plain gunfire (day) / plain shelling (night)
     1 night double attack
     2 day double attack / night main gun + torpedo cut-in
     3 day main + secondary gun cut-in / night torpedo + torpedo cut-in
     4 day main gun + radar cut-in / night two main guns + secondary gun cut-in
     5 day main gun + AP shell cut-in / night triple main gun cut-in
     6 day main gun + main gun cut-in
     7 air strike
     8 depth-charge attack
     9 torpedo attack

  Each classifier first tallies the attacker's equipment by category (a loop,
  modelled by a method whose counters are tied to `Count`), then applies an
  ordered, first-match cascade on the tallies, then falls back to rules on the
  attacker's and the defender's ship types.
 */
module AttackKind {
  import opened MasterData

  /** The number of slots whose item resolves to a category in `cats`. */
  function Count(equips: EquipTable, slot: seq<int>, cats: set<int>): (r: nat)
    ensures r <= |slot|
  {
    if |slot| == 0 then 0
    else Count(equips, slot[..|slot| - 1], cats) + (if HasCategory(equips, slot[|slot| - 1], cats) then 1 else 0)
  }

  datatype DayCounts = DayCounts(recon: nat, mainGun: nat, subGun: nat, apShell: nat, radar: nat)

  datatype NightCounts = NightCounts(mainGun: nat, subGun: nat, torpedo: nat)

  function DayTally(equips: EquipTable, slot: seq<int>): DayCounts
  {
    DayCounts(Count(equips, slot, ReconCategories), Count(equips, slot, MainGunCategories),
              Count(equips, slot, SecondaryGunCategories), Count(equips, slot, ArmorPiercingCategories),
              Count(equips, slot, RadarCategories))
  }

  function NightTally(equips: EquipTable, slot: seq<int>): NightCounts
  {
    NightCounts(Count(equips, slot, MainGunCategories), Count(equips, slot, SecondaryGunCategories),
                Count(equips, slot, TorpedoCategories))
  }

  /** The day equipment cascade; it is only consulted when a reconnaissance plane is carried. */
  function DayCutIn(c: DayCounts): Option<int>
  {
    if c.recon > 0 then
      if c.mainGun == 2 && c.apShell == 1 then Some(6)
      else if c.mainGun == 1 && c.subGun == 1 && c.apShell == 1 then Some(5)
      else if c.mainGun == 1 && c.subGun == 1 && c.radar == 1 then Some(4)
      else if c.mainGun >= 1 && c.subGun >= 1 then Some(3)
      else if c.mainGun >= 2 then Some(2)
      else None
    else None
  }

  /** The night equipment cascade. */
  function NightCutIn(c: NightCounts): Option<int>
  {
    if c.torpedo >= 2 then Some(3)
    else if c.mainGun >= 3 then Some(5)
    else if c.mainGun == 2 && c.subGun > 0 then Some(4)
    else if (c.mainGun == 2 && c.subGun == 0 && c.torpedo == 1) || (c.mainGun == 1 && c.torpedo == 1) then Some(2)
    else if (c.mainGun == 2 && c.subGun == 0 && c.torpedo == 0) || (c.mainGun == 1 && c.subGun > 0)
            || (c.subGun >= 2 && c.torpedo <= 1) then Some(1)
    else None
  }

  /**
    The ship-type rules shared by day and night, for a resolved attacker of type
    `attackerType`. The submarine-defender branch is one arm of the chain: the
    rule for a submarine attacker is only reached when the defender is not a
    resolved submarine. By day the torpedo attack of a submarine attacker is a
    deliberate special case that the game's own rule does not have.
   */
  function ShipTypeRule(ships: ShipTable, attackerType: int, defenderShipId: int): Option<int>
  {
    if attackerType in CarrierTypes then Some(7)
    else if defenderShipId in ships && ships[defenderShipId].shipType in SubmarineTypes then
      (if attackerType in AntiSubAirTypes then Some(7) else Some(8))
    else if attackerType in SubmarineTypes then Some(9)
    else None
  }

  /** The day decision on tallied counts: the cascade, then the ship types, then plain gunfire. */
  function DayDecide(ships: ShipTable, c: DayCounts, attackerShipId: int, defenderShipId: int): int
  {
    match DayCutIn(c)
    case Some(k) => k
    case None =>
      if attackerShipId in ships then ShipTypeRule(ships, ships[attackerShipId].shipType, defenderShipId).GetOr(0)
      else 0
  }

  /** The first slot holds a resolved (surface) torpedo; the submarine torpedo category does not count. */
  predicate FirstSlotTorpedo(equips: EquipTable, slot: seq<int>)
  {
    |slot| > 0 && HasCategory(equips, slot[0], {Torpedo})
  }

  /**
    The night decision on tallied counts. When nothing else applies to a
    resolved attacker, a torpedo in the first slot still gives a torpedo
    attack: a narrower check than the game's own, kept on purpose.
   */
  function NightDecide(ships: ShipTable, c: NightCounts, firstSlotTorpedo: bool, attackerShipId: int, defenderShipId: int): int
  {
    match NightCutIn(c)
    case Some(k) => k
    case None =>
      if attackerShipId !in ships then 0
      else match ShipTypeRule(ships, ships[attackerShipId].shipType, defenderShipId)
        case Some(k) => k
        case None => if firstSlotTorpedo then 9 else 0
  }

  /** The day attack kind; `None` stands for a null slot array. */
  function DayAttackKind(equips: EquipTable, ships: ShipTable, slot: Option<seq<int>>,
                         attackerShipId: int, defenderShipId: int): (r: int)
    ensures r == -1 <==> slot.None?
    ensures r in {-1, 0, 2, 3, 4, 5, 6, 7, 8, 9}
  {
    match slot
    case None => -1
    case Some(s) => DayDecide(ships, DayTally(equips, s), attackerShipId, defenderShipId)
  }

  /** The night attack kind; `None` stands for a null slot array. */
  function NightAttackKind(equips: EquipTable, ships: ShipTable, slot: Option<seq<int>>,
                           attackerShipId: int, defenderShipId: int): (r: int)
    ensures r == -1 <==> slot.None?
    ensures r in {-1, 0, 1, 2, 3, 4, 5, 7, 8, 9}
  {
    match slot
    case None => -1
    case Some(s) => NightDecide(ships, NightTally(equips, s), FirstSlotTorpedo(equips, s), attackerShipId, defenderShipId)
  }

  /** `GetDayAttackKind`: tally the slots in one pass, then decide. */
  method GetDayAttackKind(equips: EquipTable, ships: ShipTable, slot: Option<seq<int>>,
                          attackerShipId: int, defenderShipId: int) returns (kind: int)
    ensures kind == DayAttackKind(equips, ships, slot, attackerShipId, defenderShipId)
  {
    if slot.None? {
      return -1;
    }
    var s := slot.value;
    var recon: nat, mainGun: nat, subGun: nat, apShell: nat, radar: nat := 0, 0, 0, 0, 0;
    for i := 0 to |s|
      invariant recon == Count(equips, s[..i], ReconCategories)
      invariant mainGun == Count(equips, s[..i], MainGunCategories)
      invariant subGun == Count(equips, s[..i], SecondaryGunCategories)
      invariant apShell == Count(equips, s[..i], ArmorPiercingCategories)
      invariant radar == Count(equips, s[..i], RadarCategories)
    {
      assert s[..i + 1][..i] == s[..i];
      if !(s[i] in equips) {
        continue;
      }
      var eqtype := equips[s[i]].category;
      if eqtype in MainGunCategories {
        mainGun := mainGun + 1;
      } else if eqtype == SecondaryGun {
        subGun := subGun + 1;
      } else if eqtype in ReconCategories {
        recon := recon + 1;
      } else if eqtype in RadarCategories {
        radar := radar + 1;
      } else if eqtype == ArmorPiercingShell {
        apShell := apShell + 1;
      }
    }
    assert s[..|s|] == s;
    kind := DayDecide(ships, DayCounts(recon, mainGun, subGun, apShell, radar), attackerShipId, defenderShipId);
  }

  /** `GetNightAttackKind`: tally the slots in one pass, then decide. */
  method GetNightAttackKind(equips: EquipTable, ships: ShipTable, slot: Option<seq<int>>,
                            attackerShipId: int, defenderShipId: int) returns (kind: int)
    ensures kind == NightAttackKind(equips, ships, slot, attackerShipId, defenderShipId)
  {
    if slot.None? {
      return -1;
    }
    var s := slot.value;
    var mainGun: nat, subGun: nat, torpedo: nat := 0, 0, 0;
    for i := 0 to |s|
      invariant mainGun == Count(equips, s[..i], MainGunCategories)
      invariant subGun == Count(equips, s[..i], SecondaryGunCategories)
      invariant torpedo == Count(equips, s[..i], TorpedoCategories)
    {
      assert s[..i + 1][..i] == s[..i];
      if !(s[i] in equips) {
        continue;
      }
      var eqtype := equips[s[i]].category;
      if eqtype in MainGunCategories {
        mainGun := mainGun + 1;
      } else if eqtype == SecondaryGun {
        subGun := subGun + 1;
      } else if eqtype in TorpedoCategories {
        torpedo := torpedo + 1;
      }
    }
    assert s[..|s|] == s;
    var firstSlotTorpedo := |s| > 0 && s[0] in equips && equips[s[0]].category == Torpedo;
    kind := NightDecide(ships, NightCounts(mainGun, subGun, torpedo), firstSlotTorpedo, attackerShipId, defenderShipId);
  }
}
