/**
  Air superiority: the fighter power of a set of equipment slots, and its sums
  over ships and fleets.

  Each slot holding a fighter-class aircraft (categories 6, 7, 8 and 11)
  contributes its anti-air stat times the square root of the aircraft in that
  slot, truncated to an integer. The square root is taken exactly here: the
  contribution is `sign(AA) * ISqrt(AA * AA * n)`, which is the truncation of
  `AA * sqrt(n)` toward zero.
 */
module AirSuperiority {
  import opened MasterData

  function Min(a: int, b: int): int
  {
    if a <= b then a else b
  }

  /** The integer square root: the largest `r` with `r * r <= n`. */
  function ISqrt(n: nat): (r: nat)
    ensures r * r <= n < (r + 1) * (r + 1)
  {
    if n < 4 then
      (if n == 0 then 0 else 1)
    else
      var h := ISqrt(n / 4);
      ISqrtStep(n, h);
      var s := 2 * h;
      if (s + 1) * (s + 1) <= n then s + 1 else s
  }

  lemma ISqrtStep(n: nat, h: nat)
    requires h * h <= n / 4 < (h + 1) * (h + 1)
    ensures (2 * h) * (2 * h) <= n < (2 * h + 2) * (2 * h + 2)
  {
    assert (2 * h) * (2 * h) == 4 * (h * h);
    assert (2 * h + 2) * (2 * h + 2) == 4 * ((h + 1) * (h + 1));
    assert (h + 1) * (h + 1) >= n / 4 + 1;
  }

  /** The square-root bounds determine the root. */
  lemma ISqrtUnique(n: nat, r: nat)
    requires r * r <= n < (r + 1) * (r + 1)
    ensures ISqrt(n) == r
  {
    var q := ISqrt(n);
    if q < r {
      SquareMonotone(q + 1, r);
    } else if r < q {
      SquareMonotone(r + 1, q);
    }
  }

  lemma SquareMonotone(x: nat, y: nat)
    requires x <= y
    ensures x * x <= y * y
  {
    assert y * y - x * x == (y - x) * (y + x);
  }

  /** `(int)(aa * Math.Sqrt(n))`: the product truncated toward zero. */
  function Contrib(aa: int, n: nat): (r: int)
    ensures aa >= 0 ==> r >= 0 && r * r <= aa * aa * n < (r + 1) * (r + 1)
    ensures aa < 0 ==> r <= 0 && r * r <= aa * aa * n < (r - 1) * (r - 1)
  {
    SquareTimesNat(aa, n);
    var root: int := ISqrt(aa * aa * n);
    if aa >= 0 then root else NegatedRoot(root, aa * aa * n); -root
  }

  lemma SquareTimesNat(aa: int, n: nat)
    ensures aa * aa * n >= 0
  {
    assert aa * aa >= 0;
  }

  lemma NegatedRoot(root: int, sq: int)
    requires root * root <= sq < (root + 1) * (root + 1)
    ensures (-root) * (-root) <= sq < (-root - 1) * (-root - 1)
  {
    assert (-root) * (-root) == root * root;
    assert (-root - 1) * (-root - 1) == (root + 1) * (root + 1);
  }

  /** A perfect-square aircraft count contributes exactly `aa * k`. */
  lemma ContribPerfectSquare(aa: nat, k: nat)
    ensures Contrib(aa, k * k) == aa * k
  {
    assert aa * aa * (k * k) == (aa * k) * (aa * k);
    ISqrtUnique(aa * aa * (k * k), aa * k);
  }

  /** The contribution of one slot: only resolved fighter-class equipment counts. */
  function SlotAir(equips: EquipTable, id: int, n: nat): int
  {
    if HasCategory(equips, id, FighterCategories) then Contrib(equips[id].aa, n) else 0
  }

  /** The sum of the slot contributions over the first `k` slots. */
  function AirPrefix(equips: EquipTable, slot: seq<int>, aircraft: seq<nat>, k: nat): (r: int)
    requires k <= |slot| && k <= |aircraft|
    ensures AANonNegative(equips) ==> r >= 0
  {
    if k == 0 then 0
    else AirPrefix(equips, slot, aircraft, k - 1) + SlotAir(equips, slot[k - 1], aircraft[k - 1])
  }

  /** The air superiority of a slot list: the sum over the slots both arrays cover. */
  function SlotsAir(equips: EquipTable, slot: seq<int>, aircraft: seq<nat>): int
  {
    AirPrefix(equips, slot, aircraft, Min(|slot|, |aircraft|))
  }

  /** `GetAirSuperiority(int[] slot, int[] aircraft)`. */
  method GetAirSuperiority(equips: EquipTable, slot: seq<int>, aircraft: seq<nat>) returns (air: int)
    ensures air == SlotsAir(equips, slot, aircraft)
  {
    air := 0;
    var length := Min(|slot|, |aircraft|);
    for s := 0 to length
      invariant air == AirPrefix(equips, slot, aircraft, s)
    {
      if !(slot[s] in equips) {
        continue;
      }
      var eq := equips[slot[s]];
      if eq.category in FighterCategories {
        air := air + Contrib(eq.aa, aircraft[s]);
      }
    }
  }

  /** `GetAirSuperiority(ShipDataMaster)`: the default equipment against the ship's capacities. */
  function ShipMasterAir(equips: EquipTable, ship: ShipMaster): (r: int)
    ensures ship.defaultSlot.None? ==> r == 0
    ensures AANonNegative(equips) ==> r >= 0
  {
    match ship.defaultSlot
    case None => 0
    case Some(ds) => SlotsAir(equips, ds, ship.aircraft)
  }

  /** `GetAirSuperiority(ShipDataMaster)`. */
  method GetShipMasterAirSuperiority(equips: EquipTable, ship: ShipMaster) returns (air: int)
    ensures air == ShipMasterAir(equips, ship)
  {
    if ship.defaultSlot.None? {
      return 0;
    }
    air := GetAirSuperiority(equips, ship.defaultSlot.value, ship.aircraft);
  }

  /** `GetAirSuperiority(ShipData)`: the live equipment against the live aircraft counts. */
  function ShipAir(equips: EquipTable, ship: ShipInstance): (r: int)
    ensures AANonNegative(equips) ==> r >= 0
  {
    SlotsAir(equips, ship.slotMaster, ship.aircraft)
  }

  /** `GetAirSuperiority(ShipData)`. */
  method GetShipAirSuperiority(equips: EquipTable, ship: ShipInstance) returns (air: int)
    ensures air == ShipAir(equips, ship)
  {
    air := GetAirSuperiority(equips, ship.slotMaster, ship.aircraft);
  }

  // ---------------------------------------------------------------------------
  // A fleet given as master ship ids.

  /** One ship id's share: an unknown id contributes nothing. */
  function ShipIdAir(equips: EquipTable, ships: ShipTable, id: int): int
  {
    if id in ships then ShipMasterAir(equips, ships[id]) else 0
  }

  function ShipIdsAir(equips: EquipTable, ships: ShipTable, fleet: seq<int>): (r: int)
    ensures AANonNegative(equips) ==> r >= 0
  {
    if |fleet| == 0 then 0
    else ShipIdsAir(equips, ships, fleet[..|fleet| - 1]) + ShipIdAir(equips, ships, fleet[|fleet| - 1])
  }

  /** `GetAirSuperiority(int[] fleet)`. */
  method GetFleetIdsAirSuperiority(equips: EquipTable, ships: ShipTable, fleet: seq<int>) returns (air: int)
    ensures air == ShipIdsAir(equips, ships, fleet)
  {
    air := 0;
    for i := 0 to |fleet|
      invariant air == ShipIdsAir(equips, ships, fleet[..i])
    {
      assert fleet[..i + 1][..i] == fleet[..i];
      if !(fleet[i] in ships) {
        continue;
      }
      var shipAir := GetShipMasterAirSuperiority(equips, ships[fleet[i]]);
      air := air + shipAir;
    }
    assert fleet[..|fleet|] == fleet;
  }

  // ---------------------------------------------------------------------------
  // A fleet given as master ship ids together with the slots each ship carries.

  /** Ship `i`'s share: its explicit slots against its master aircraft capacities. */
  function SlottedShipAir(equips: EquipTable, ships: ShipTable, id: int, slot: seq<int>): int
  {
    if id in ships then SlotsAir(equips, slot, ships[id].aircraft) else 0
  }

  function SlottedPrefix(equips: EquipTable, ships: ShipTable, fleet: seq<int>, slots: seq<seq<int>>, k: nat): (r: int)
    requires k <= |fleet| && k <= |slots|
    ensures AANonNegative(equips) ==> r >= 0
  {
    if k == 0 then 0
    else SlottedPrefix(equips, ships, fleet, slots, k - 1) + SlottedShipAir(equips, ships, fleet[k - 1], slots[k - 1])
  }

  function SlottedFleetAir(equips: EquipTable, ships: ShipTable, fleet: seq<int>, slots: seq<seq<int>>): int
  {
    SlottedPrefix(equips, ships, fleet, slots, Min(|fleet|, |slots|))
  }

  /** `GetAirSuperiority(int[] fleet, int[][] slot)`. */
  method GetSlottedFleetAirSuperiority(equips: EquipTable, ships: ShipTable, fleet: seq<int>, slot: seq<seq<int>>)
    returns (air: int)
    ensures air == SlottedFleetAir(equips, ships, fleet, slot)
  {
    air := 0;
    var length := Min(|fleet|, |slot|);
    for i := 0 to length
      invariant air == SlottedPrefix(equips, ships, fleet, slot, i)
    {
      if !(fleet[i] in ships) {
        continue;
      }
      var ship := ships[fleet[i]];
      var shipAir := GetAirSuperiority(equips, slot[i], ship.aircraft);
      air := air + shipAir;
    }
  }

  // ---------------------------------------------------------------------------
  // A live fleet.

  function MemberAir(equips: EquipTable, member: Option<ShipInstance>): int
  {
    match member
    case None => 0
    case Some(ship) => ShipAir(equips, ship)
  }

  function MembersAir(equips: EquipTable, members: seq<Option<ShipInstance>>): (r: int)
    ensures AANonNegative(equips) ==> r >= 0
  {
    if |members| == 0 then 0
    else MembersAir(equips, members[..|members| - 1]) + MemberAir(equips, members[|members| - 1])
  }

  /** `GetAirSuperiority(FleetData)`. */
  method GetFleetAirSuperiority(equips: EquipTable, fleet: Fleet) returns (air: int)
    ensures air == MembersAir(equips, fleet.membersInstance)
  {
    air := 0;
    var members := fleet.membersInstance;
    for i := 0 to |members|
      invariant air == MembersAir(equips, members[..i])
    {
      assert members[..i + 1][..i] == members[..i];
      if members[i].None? {
        continue;
      }
      var shipAir := GetShipAirSuperiority(equips, members[i].value);
      air := air + shipAir;
    }
    assert members[..|members|] == members;
  }
}
