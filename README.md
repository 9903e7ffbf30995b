# Combat calculator of ElectronicObserver, in Dafny

A model of the static class `Calculator` of ElectronicObserver, a companion tool
for a naval combat game. That class does three things:

- it scales a ship stat linearly by level (`GetParameterFromLevel`);
- it adds up the air superiority (fighter power) of equipment slots, and of
  ships and fleets built from them (the six `GetAirSuperiority` overloads);
- it classifies the attack a ship makes in a day or night battle from the
  equipment it carries and from the ship types of attacker and defender
  (`GetDayAttackKind`, `GetNightAttackKind`).

The game's master tables are passed in as read-only maps. The equipment table
(`EquipTable`) keeps each item's category code (`EquipmentType[2]`) and its
anti-air stat (`AA`). The ship table (`ShipTable`) keeps each ship's type, its
optional default equipment and its aircraft capacity per slot. An identifier
that is not a key of a map stands for the `null` that the game database returns
for an unknown identifier. So the defender id `-1`, which callers pass for "no
defender", is just an id missing from the map. A live ship is the pair of its
equipped master ids (`SlotMaster`) and its aircraft counts. A live fleet is a
sequence of optional ships (`MembersInstance`).

Files and modules:

- `masterdata.dfy` (`MasterData`): the record types, and the category and
  ship-type codes as named constants.
- `level.dfy` (`Level`): truncating division and the level parameter, with its
  end-point, bound and monotonicity lemmas.
- `airsuperiority.dfy` (`AirSuperiority`): the exact per-slot contribution and
  the specification sums. One method per looping overload, each proved equal to
  its sum.
- `airsuperiority_properties.dfy` (`AirSuperiorityProperties`): what the sums
  ignore, and how they split and relate.
- `attackkind.dfy` (`AttackKind`): equipment counts, the two rule cascades, the
  ship-type fallback, the classifiers as functions, and the two source methods.
  Each method tallies in one loop whose counters are tied to `Count`.
- `attackkind_properties.dfy` (`AttackKindProperties`): precedence, fallback,
  slot-order and first-slot properties of both classifiers.

Modelling choices:

- A slot's contribution is `(int)(AA * Math.Sqrt(n))` in the source. The model
  computes it exactly, as `Contrib(aa, n)`. For `aa >= 0` that is the integer
  square root of `aa * aa * n`, which is `floor(aa * sqrt(n))`. For a negative
  `aa` it is the same value negated, which is the truncation toward zero of
  `aa * sqrt(n)`.
- The source's `/` on `int` truncates toward zero. Dafny's `/` is Euclidean, so
  the model uses an explicit `TruncDiv`. The two differ when a stat shrinks with
  level: `ParameterTruncatesTowardZero` shows the case.
- The two `else` arms at `Calculator.cs:205-215` and `:281-288` attach to the
  test for a submarine defender. So a submarine attacker gets the torpedo rule
  only when the defender is not a resolved submarine. `ShipTypeRule` is written
  as that chain.
- The `&` at `Calculator.cs:267` is a non-short-circuit `and` on booleans that
  have no side effects. It is modelled as `&&`.
- Two quirks are kept as the source has them. By day, a submarine attacker gets
  a torpedo attack: the source notes that the game's own rule has no such case.
  At night, a torpedo in the first slot alone still gives a torpedo attack.

## Model

| member | source | states |
|---|---|---|
| `Level.TruncDiv` | ElectronicObserver/Utility/Data/Calculator.cs:24 | C# integer division: for a non-negative dividend the quotient is the floor of `a / b`; for a negative one it is the ceiling, so it rounds toward zero |
| `Level.TruncDivExact` | ElectronicObserver/Utility/Data/Calculator.cs:24 | an exact multiple divides to its exact quotient |
| `Level.TruncDivMonotone` | ElectronicObserver/Utility/Data/Calculator.cs:24 | truncating division never decreases as the dividend grows |
| `Level.ParameterEndpoints` | ElectronicObserver/Utility/Data/Calculator.cs:23-25 | level 0 gives `min` and level 99 gives `max`, for all `min` and `max` |
| `Level.ParameterMonotone` | ElectronicObserver/Utility/Data/Calculator.cs:23-25 | with `min <= max`, the parameter does not decrease as the level grows, at any levels |
| `Level.ParameterAntitone` | ElectronicObserver/Utility/Data/Calculator.cs:23-25 | with `max <= min`, the parameter does not increase as the level grows |
| `Level.ParameterBetween` | ElectronicObserver/Utility/Data/Calculator.cs:23-25 | for levels 0 to 99 the parameter lies between `min` and `max`, in either order |
| `Level.ParameterTruncatesTowardZero` | ElectronicObserver/Utility/Data/Calculator.cs:24 | a stat shrinking from 10 to 0 is still 10 at level 1; Euclidean division would give 9 |
| `AirSuperiority.ISqrt` | ElectronicObserver/Utility/Data/Calculator.cs:51 | the largest `r` with `r * r <= n` |
| `AirSuperiority.Contrib` | ElectronicObserver/Utility/Data/Calculator.cs:51 | `(int)(aa * sqrt(n))`: for `aa >= 0` a non-negative `r` with `r*r <= aa*aa*n < (r+1)*(r+1)`; for `aa < 0` the same bounds mirrored, so it truncates toward zero |
| `AirSuperiority.ContribPerfectSquare` | ElectronicObserver/Utility/Data/Calculator.cs:51 | with `k * k` aircraft a slot contributes exactly `aa * k` |
| `AirSuperiority.AirPrefix` | ElectronicObserver/Utility/Data/Calculator.cs:40-54 | the sum of the first `k` slot contributions is non-negative when every anti-air stat is |
| `AirSuperiority.GetAirSuperiority` | ElectronicObserver/Utility/Data/Calculator.cs:35-57 | the loop returns the sum of the slot contributions over the indices below `min(|slot|, |aircraft|)`; only resolved items of category 6, 7, 8 or 11 contribute |
| `AirSuperiority.ShipMasterAir` | ElectronicObserver/Utility/Data/Calculator.cs:112-117 | a master ship without default equipment gives 0; the result is non-negative when every anti-air stat is |
| `AirSuperiority.GetShipMasterAirSuperiority` | ElectronicObserver/Utility/Data/Calculator.cs:112-117 | returns 0 for a null default slot list, otherwise the slot-level total of the default equipment against the master capacities |
| `AirSuperiority.GetShipAirSuperiority` | ElectronicObserver/Utility/Data/Calculator.cs:102-106 | returns the slot-level total of the live equipment against the live aircraft counts |
| `AirSuperiority.ShipAir` | ElectronicObserver/Utility/Data/Calculator.cs:102-106 | a live ship's total is non-negative when every anti-air stat is |
| `AirSuperiority.ShipIdsAir` | ElectronicObserver/Utility/Data/Calculator.cs:63-75 | the total over ship ids is non-negative when every anti-air stat is |
| `AirSuperiority.GetFleetIdsAirSuperiority` | ElectronicObserver/Utility/Data/Calculator.cs:63-75 | the loop returns the sum, over the ids, of each resolved master ship's default-equipment total; unknown ids add 0 |
| `AirSuperiority.SlottedPrefix` | ElectronicObserver/Utility/Data/Calculator.cs:87-93 | the total over the first `k` ships with explicit slots is non-negative when every anti-air stat is |
| `AirSuperiority.GetSlottedFleetAirSuperiority` | ElectronicObserver/Utility/Data/Calculator.cs:82-96 | the loop visits indices below `min(|fleet|, |slot|)` and returns the sum of each resolved ship's explicit slots against its master capacities |
| `AirSuperiority.MembersAir` | ElectronicObserver/Utility/Data/Calculator.cs:123-134 | the live fleet total is non-negative when every anti-air stat is |
| `AirSuperiority.GetFleetAirSuperiority` | ElectronicObserver/Utility/Data/Calculator.cs:123-134 | the loop returns the sum of the live ships' totals, skipping empty positions |
| `AirSuperiorityProperties.AirPrefixAgree` | ElectronicObserver/Utility/Data/Calculator.cs:38-54 | the first `k` contributions depend only on the first `k` entries of each array |
| `AirSuperiorityProperties.SlotsAirEmpty` | ElectronicObserver/Utility/Data/Calculator.cs:37-40 | an empty slot array or an empty aircraft array gives 0 |
| `AirSuperiorityProperties.SlotsAirTruncate` | ElectronicObserver/Utility/Data/Calculator.cs:38 | cutting both arrays to the shorter length leaves the total unchanged |
| `AirSuperiorityProperties.SlotsAirIgnoresExtra` | ElectronicObserver/Utility/Data/Calculator.cs:38 | entries appended to the longer array, beyond the shorter one, leave the total unchanged |
| `AirSuperiorityProperties.AirPrefixUpdate` | ElectronicObserver/Utility/Data/Calculator.cs:40-54 | replacing one item changes a prefix sum by that slot's change of share when the slot lies inside the prefix, and not at all otherwise |
| `AirSuperiorityProperties.SlotsAirUpdate` | ElectronicObserver/Utility/Data/Calculator.cs:40-54 | the total minus one slot's share is the same whatever that slot holds |
| `AirSuperiorityProperties.SlotsAirNonFighterIgnored` | ElectronicObserver/Utility/Data/Calculator.cs:44-53 | an unknown id or a category outside {6, 7, 8, 11} contributes 0: swapping one for another changes nothing |
| `AirSuperiorityProperties.AirPrefixNoFighters` | ElectronicObserver/Utility/Data/Calculator.cs:40-54 | a prefix without resolved fighter-class items sums to 0 |
| `AirSuperiorityProperties.SlotsAirNoFighters` | ElectronicObserver/Utility/Data/Calculator.cs:35-57 | slots without resolved fighter-class items give 0 |
| `AirSuperiorityProperties.SlotsAirSingleFighter` | ElectronicObserver/Utility/Data/Calculator.cs:51 | one fighter with anti-air `aa` and 9 aircraft gives `3 * aa` (30 for `aa` = 10) |
| `AirSuperiorityProperties.ShipIdsAirAppend` | ElectronicObserver/Utility/Data/Calculator.cs:63-75 | the total over ship ids is additive over any split of the id list |
| `AirSuperiorityProperties.ShipIdsAirSkips` | ElectronicObserver/Utility/Data/Calculator.cs:68-71 | an unknown ship id, or a master ship without default equipment, adds nothing wherever it stands |
| `AirSuperiorityProperties.SlottedPrefixAgree` | ElectronicObserver/Utility/Data/Calculator.cs:85-93 | the first `k` ships' total depends only on the first `k` ids and slot lists |
| `AirSuperiorityProperties.SlottedFleetAirTruncate` | ElectronicObserver/Utility/Data/Calculator.cs:85 | only indices below `min(|fleet|, |slot|)` are visited |
| `AirSuperiorityProperties.SlottedPrefixUnknown` | ElectronicObserver/Utility/Data/Calculator.cs:88-89 | the slot list of an unknown ship id does not change any prefix total |
| `AirSuperiorityProperties.SlottedFleetAirSkipsUnknown` | ElectronicObserver/Utility/Data/Calculator.cs:88-89 | an unknown ship id adds nothing: its slot list can be anything |
| `AirSuperiorityProperties.SlottedPrefixDefaults` | ElectronicObserver/Utility/Data/Calculator.cs:82-96 | with default slots passed explicitly, each prefix of the explicit-slot overload equals the id overload on that prefix |
| `AirSuperiorityProperties.SlottedFleetAirWithDefaults` | ElectronicObserver/Utility/Data/Calculator.cs:82-96 | passing each ship's default equipment as its explicit slots gives the same total as the overload over ship ids |
| `AirSuperiorityProperties.MembersAirAppend` | ElectronicObserver/Utility/Data/Calculator.cs:123-134 | the live fleet total is additive over any split of the positions |
| `AirSuperiorityProperties.MembersAirSkipsEmpty` | ElectronicObserver/Utility/Data/Calculator.cs:128 | an empty fleet position adds nothing |
| `AirSuperiorityProperties.MembersAirSingle` | ElectronicObserver/Utility/Data/Calculator.cs:102-106 | a present ship adds its slot-level total over its live equipment and aircraft |
| `AttackKind.Count` | ElectronicObserver/Utility/Data/Calculator.cs:154-182 | a category tally never exceeds the number of slots |
| `AttackKind.DayAttackKind` | ElectronicObserver/Utility/Data/Calculator.cs:144-219 | returns -1 exactly when the slot array is null; otherwise a kind in {0, 2, ..., 9}, never 1 |
| `AttackKind.NightAttackKind` | ElectronicObserver/Utility/Data/Calculator.cs:228-300 | returns -1 exactly when the slot array is null; otherwise a kind in {0, ..., 5, 7, 8, 9}, never 6 |
| `AttackKind.GetDayAttackKind` | ElectronicObserver/Utility/Data/Calculator.cs:144-219 | one tally loop over the slots, then the cascade, gives the day attack kind |
| `AttackKind.GetNightAttackKind` | ElectronicObserver/Utility/Data/Calculator.cs:228-300 | one tally loop over the slots, then the cascade, gives the night attack kind |
| `AttackKindProperties.CountAppend` | ElectronicObserver/Utility/Data/Calculator.cs:154-182 | tallies are additive over any split of the slots |
| `AttackKindProperties.CountPermutation` | ElectronicObserver/Utility/Data/Calculator.cs:154-182 | a tally depends only on the multiset of items, not on their slots |
| `AttackKindProperties.FirstSlotCounted` | ElectronicObserver/Utility/Data/Calculator.cs:236-256 | an item in the first slot is counted in its category's tally |
| `AttackKindProperties.DayCutInFires` | ElectronicObserver/Utility/Data/Calculator.cs:184-195 | an equipment rule fires by day exactly when a recon plane is carried with two main guns, or with a main and a secondary gun |
| `AttackKindProperties.DayCutInExact` | ElectronicObserver/Utility/Data/Calculator.cs:184-195 | first match in the order 6, 5, 4, 3, 2: the exact condition under which each kind wins |
| `AttackKindProperties.DayEquipmentPrecedence` | ElectronicObserver/Utility/Data/Calculator.cs:184-218 | once an equipment rule fires, the ship table and both ship ids play no part |
| `AttackKindProperties.DayGunGunCutIn` | ElectronicObserver/Utility/Data/Calculator.cs:185-186 | two main guns, one AP shell and a recon plane give 6 whatever the ships |
| `AttackKindProperties.DayReconWithMainGuns` | ElectronicObserver/Utility/Data/Calculator.cs:184-195 | a recon plane with two or more main guns gives 2, 3 or 6 |
| `AttackKindProperties.DayWithoutRecon` | ElectronicObserver/Utility/Data/Calculator.cs:184 | without a recon plane the equipment has no effect by day |
| `AttackKindProperties.DayShipTypeFallback` | ElectronicObserver/Utility/Data/Calculator.cs:198-218 | when no equipment rule fires: unknown attacker 0; carrier 7; resolved submarine defender 7 for types 6, 10, 16, 17 and 8 otherwise; submarine attacker 9; else 0 |
| `AttackKindProperties.DayEmptySlotsCarrier` | ElectronicObserver/Utility/Data/Calculator.cs:201-204 | with empty slots a carrier attacker gives 7 whatever the defender |
| `AttackKindProperties.DayPermutationInvariant` | ElectronicObserver/Utility/Data/Calculator.cs:154-218 | the day result is the same for any permutation of the slots |
| `AttackKindProperties.DayIgnoresOtherEquipment` | ElectronicObserver/Utility/Data/Calculator.cs:161-181 | an added item of a category the day tally ignores leaves the day result unchanged |
| `AttackKindProperties.NightCutInExact` | ElectronicObserver/Utility/Data/Calculator.cs:259-271 | first match in the order 3, 5, 4, 2, 1: the exact condition under which each kind wins, and when none does |
| `AttackKindProperties.NightTwoTorpedoes` | ElectronicObserver/Utility/Data/Calculator.cs:259-260 | two or more torpedoes (categories 5 and 32) give 3 whatever else is carried and whatever the ships |
| `AttackKindProperties.NightEquipmentPrecedence` | ElectronicObserver/Utility/Data/Calculator.cs:259-298 | once an equipment rule fires at night, the ship table and both ship ids play no part |
| `AttackKindProperties.NightShipTypeFallback` | ElectronicObserver/Utility/Data/Calculator.cs:274-298 | when no equipment rule fires: unknown attacker 0; carrier 7; resolved submarine defender 7 or 8; submarine attacker 9 |
| `AttackKindProperties.NightFirstSlotTorpedo` | ElectronicObserver/Utility/Data/Calculator.cs:259-298 | for a non-submarine attacker, 9 exactly when the attacker resolves, is not a carrier, the defender is no resolved submarine, the first slot holds category 5, and the tallies are no main gun, at most one secondary gun, one torpedo |
| `AttackKindProperties.NightOrderOnlyThroughFirstSlot` | ElectronicObserver/Utility/Data/Calculator.cs:236-298 | two slot lists with the same items and the same first slot give the same night result |
| `AttackKindProperties.NightOrderMatters` | ElectronicObserver/Utility/Data/Calculator.cs:289-294 | moving a lone torpedo out of the first slot turns 9 into 0 for a destroyer |
| `AttackKindProperties.NightIgnoresOtherEquipment` | ElectronicObserver/Utility/Data/Calculator.cs:242-254 | an added item of a category the night tally ignores (recon, radar, AP shell) leaves the night result unchanged |

## Left out

- The game database singleton `KCDatabase.Instance` and its loading: the master tables are map parameters, and only the fields the calculator reads are kept.
- Floating point: `Math.Sqrt` and the `(int)` cast are replaced by exact integer arithmetic, so rounding errors of the double product are not modelled.
- Negative aircraft counts: aircraft counts are typed `nat`. The square root of a negative count is NaN in the source, and that case is not modelled.
- 32-bit wrap-around: in `(max - min) * lv`, in the `air +=` sums and in the tallies. The model uses unbounded integers.
- Null arrays other than the classifiers' `slot`: a null array passed to the air superiority overloads, or a null inner slot array in `GetAirSuperiority(int[], int[][])`, throws in the source and is not modelled.
- The internals of `ShipData`, `FleetData` and `ShipDataMaster` and the `.ToArray()` copies: these classes are not part of this model. A live ship is its `SlotMaster` and `Aircraft` lists, and a fleet is its `MembersInstance` list.
