/** Properties of the air superiority sums: what counts, what is ignored, how the overloads relate. */
module AirSuperiorityProperties {
  import opened MasterData
  import opened AirSuperiority

  // ---------------------------------------------------------------------------
  // The slot-level primitive.

  /** The prefix sum depends only on the first `k` entries of each array. */
  lemma {:induction false} AirPrefixAgree(equips: EquipTable, s: seq<int>, a: seq<nat>, t: seq<int>, b: seq<nat>, k: nat)
    requires k <= |s| && k <= |a| && k <= |t| && k <= |b|
    requires s[..k] == t[..k] && a[..k] == b[..k]
    ensures AirPrefix(equips, s, a, k) == AirPrefix(equips, t, b, k)
  {
    if k > 0 {
      assert s[k - 1] == s[..k][k - 1] == t[k - 1];
      assert a[k - 1] == a[..k][k - 1] == b[k - 1];
      assert s[..k - 1] == s[..k][..k - 1];
      assert t[..k - 1] == t[..k][..k - 1];
      assert a[..k - 1] == a[..k][..k - 1];
      assert b[..k - 1] == b[..k][..k - 1];
      AirPrefixAgree(equips, s, a, t, b, k - 1);
    }
  }

  /** No slot at all, or no aircraft array entries at all, gives 0. */
  lemma SlotsAirEmpty(equips: EquipTable, slot: seq<int>, aircraft: seq<nat>)
    ensures SlotsAir(equips, [], aircraft) == 0
    ensures SlotsAir(equips, slot, []) == 0
  {
  }

  /** Only the first `min(|slot|, |aircraft|)` entries are looked at. */
  lemma SlotsAirTruncate(equips: EquipTable, slot: seq<int>, aircraft: seq<nat>)
    ensures var m := Min(|slot|, |aircraft|);
      SlotsAir(equips, slot, aircraft) == SlotsAir(equips, slot[..m], aircraft[..m])
  {
    var m := Min(|slot|, |aircraft|);
    AirPrefixAgree(equips, slot, aircraft, slot[..m], aircraft[..m], m);
  }

  /** Entries appended beyond the end of the shorter array change nothing. */
  lemma SlotsAirIgnoresExtra(equips: EquipTable, slot: seq<int>, aircraft: seq<nat>, moreSlot: seq<int>, moreAircraft: seq<nat>)
    ensures |slot| <= |aircraft| ==>
      SlotsAir(equips, slot, aircraft + moreAircraft) == SlotsAir(equips, slot, aircraft)
    ensures |aircraft| <= |slot| ==>
      SlotsAir(equips, slot + moreSlot, aircraft) == SlotsAir(equips, slot, aircraft)
  {
    if |slot| <= |aircraft| {
      var m := |slot|;
      assert (aircraft + moreAircraft)[..m] == aircraft[..m];
      AirPrefixAgree(equips, slot, aircraft + moreAircraft, slot, aircraft, m);
    }
    if |aircraft| <= |slot| {
      var m := |aircraft|;
      assert (slot + moreSlot)[..m] == slot[..m];
      AirPrefixAgree(equips, slot + moreSlot, aircraft, slot, aircraft, m);
    }
  }

  lemma {:induction false} AirPrefixUpdate(equips: EquipTable, s: seq<int>, a: seq<nat>, k: nat, i: nat, x: int)
    requires k <= |s| && k <= |a| && i < |s| && i < |a|
    ensures AirPrefix(equips, s[i := x], a, k) ==
      AirPrefix(equips, s, a, k) + (if i < k then SlotAir(equips, x, a[i]) - SlotAir(equips, s[i], a[i]) else 0)
  {
    if k > 0 {
      AirPrefixUpdate(equips, s, a, k - 1, i, x);
    }
  }

  /** Replacing the item in one covered slot changes the total by exactly the change of that slot's share. */
  lemma SlotsAirUpdate(equips: EquipTable, slot: seq<int>, aircraft: seq<nat>, i: nat, x: int)
    requires i < |slot| && i < |aircraft|
    ensures SlotsAir(equips, slot[i := x], aircraft) ==
      SlotsAir(equips, slot, aircraft) - SlotAir(equips, slot[i], aircraft[i]) + SlotAir(equips, x, aircraft[i])
  {
    AirPrefixUpdate(equips, slot, aircraft, Min(|slot|, |aircraft|), i, x);
  }

  /**
    An unknown id or a non-fighter item contributes 0: swapping one such item
    for another such item (for instance an empty slot, id -1) leaves the total
    unchanged.
   */
  lemma SlotsAirNonFighterIgnored(equips: EquipTable, slot: seq<int>, aircraft: seq<nat>, i: nat, x: int)
    requires i < |slot| && i < |aircraft|
    requires !HasCategory(equips, slot[i], FighterCategories)
    requires !HasCategory(equips, x, FighterCategories)
    ensures SlotsAir(equips, slot[i := x], aircraft) == SlotsAir(equips, slot, aircraft)
  {
    SlotsAirUpdate(equips, slot, aircraft, i, x);
  }

  lemma {:induction false} AirPrefixNoFighters(equips: EquipTable, s: seq<int>, a: seq<nat>, k: nat)
    requires k <= |s| && k <= |a|
    requires forall i :: 0 <= i < k ==> !HasCategory(equips, s[i], FighterCategories)
    ensures AirPrefix(equips, s, a, k) == 0
  {
    if k > 0 {
      AirPrefixNoFighters(equips, s, a, k - 1);
    }
  }

  /** Slots without any resolved fighter-class item give 0. */
  lemma SlotsAirNoFighters(equips: EquipTable, slot: seq<int>, aircraft: seq<nat>)
    requires forall i :: 0 <= i < |slot| && i < |aircraft| ==> !HasCategory(equips, slot[i], FighterCategories)
    ensures SlotsAir(equips, slot, aircraft) == 0
  {
    AirPrefixNoFighters(equips, slot, aircraft, Min(|slot|, |aircraft|));
  }

  /** A single fighter with anti-air `aa` and 9 aircraft gives `aa * sqrt(9) == 3 * aa`. */
  lemma SlotsAirSingleFighter(equips: EquipTable, id: int)
    requires HasCategory(equips, id, FighterCategories) && equips[id].aa >= 0
    ensures SlotsAir(equips, [id], [9]) == 3 * equips[id].aa
  {
    ContribPerfectSquare(equips[id].aa, 3);
    assert AirPrefix(equips, [id], [9], 1) == SlotAir(equips, id, 3 * 3);
  }

  // ---------------------------------------------------------------------------
  // A fleet of master ship ids.

  /** The fleet total is the sum of the totals of any split of the fleet. */
  lemma {:induction false} ShipIdsAirAppend(equips: EquipTable, ships: ShipTable, f: seq<int>, g: seq<int>)
    ensures ShipIdsAir(equips, ships, f + g) == ShipIdsAir(equips, ships, f) + ShipIdsAir(equips, ships, g)
  {
    if |g| == 0 {
      assert f + g == f;
    } else {
      var g' := g[..|g| - 1];
      assert (f + g)[..|f + g| - 1] == f + g';
      assert (f + g)[|f + g| - 1] == g[|g| - 1];
      ShipIdsAirAppend(equips, ships, f, g');
    }
  }

  /** An unknown ship id, or a ship without default equipment, adds nothing to the fleet total. */
  lemma ShipIdsAirSkips(equips: EquipTable, ships: ShipTable, f: seq<int>, id: int, g: seq<int>)
    requires id !in ships || ships[id].defaultSlot.None?
    ensures ShipIdsAir(equips, ships, f + [id] + g) == ShipIdsAir(equips, ships, f + g)
  {
    ShipIdsAirAppend(equips, ships, f + [id], g);
    ShipIdsAirAppend(equips, ships, f, [id]);
    ShipIdsAirAppend(equips, ships, f, g);
    assert [id][..0] == [];
  }

  // ---------------------------------------------------------------------------
  // A fleet of master ship ids with explicit slots.

  lemma {:induction false} SlottedPrefixAgree(equips: EquipTable, ships: ShipTable, f: seq<int>, s: seq<seq<int>>,
                                              g: seq<int>, t: seq<seq<int>>, k: nat)
    requires k <= |f| && k <= |s| && k <= |g| && k <= |t|
    requires f[..k] == g[..k] && s[..k] == t[..k]
    ensures SlottedPrefix(equips, ships, f, s, k) == SlottedPrefix(equips, ships, g, t, k)
  {
    if k > 0 {
      assert f[k - 1] == f[..k][k - 1] == g[k - 1];
      assert s[k - 1] == s[..k][k - 1] == t[k - 1];
      assert f[..k - 1] == f[..k][..k - 1];
      assert g[..k - 1] == g[..k][..k - 1];
      assert s[..k - 1] == s[..k][..k - 1];
      assert t[..k - 1] == t[..k][..k - 1];
      SlottedPrefixAgree(equips, ships, f, s, g, t, k - 1);
    }
  }

  /** Only the first `min(|fleet|, |slots|)` ships and slot lists are visited. */
  lemma SlottedFleetAirTruncate(equips: EquipTable, ships: ShipTable, fleet: seq<int>, slots: seq<seq<int>>)
    ensures var m := Min(|fleet|, |slots|);
      SlottedFleetAir(equips, ships, fleet, slots) == SlottedFleetAir(equips, ships, fleet[..m], slots[..m])
  {
    var m := Min(|fleet|, |slots|);
    SlottedPrefixAgree(equips, ships, fleet, slots, fleet[..m], slots[..m], m);
  }

  lemma {:induction false} SlottedPrefixUnknown(equips: EquipTable, ships: ShipTable, f: seq<int>, s: seq<seq<int>>,
                                                k: nat, i: nat, t: seq<int>)
    requires k <= |f| && k <= |s| && i < |s| && i < |f| && f[i] !in ships
    ensures SlottedPrefix(equips, ships, f, s[i := t], k) == SlottedPrefix(equips, ships, f, s, k)
  {
    if k > 0 {
      SlottedPrefixUnknown(equips, ships, f, s, k - 1, i, t);
    }
  }

  /** The slots given for an unknown ship id are never looked at. */
  lemma SlottedFleetAirSkipsUnknown(equips: EquipTable, ships: ShipTable, fleet: seq<int>, slots: seq<seq<int>>,
                                    i: nat, t: seq<int>)
    requires i < |fleet| && i < |slots| && fleet[i] !in ships
    ensures SlottedFleetAir(equips, ships, fleet, slots[i := t]) == SlottedFleetAir(equips, ships, fleet, slots)
  {
    SlottedPrefixUnknown(equips, ships, fleet, slots, Min(|fleet|, |slots|), i, t);
  }

  lemma {:induction false} SlottedPrefixDefaults(equips: EquipTable, ships: ShipTable, fleet: seq<int>, slots: seq<seq<int>>, k: nat)
    requires k <= |fleet| && k <= |slots|
    requires forall i :: 0 <= i < k && fleet[i] in ships ==> ships[fleet[i]].defaultSlot == Some(slots[i])
    ensures SlottedPrefix(equips, ships, fleet, slots, k) == ShipIdsAir(equips, ships, fleet[..k])
  {
    if k > 0 {
      assert fleet[..k][..k - 1] == fleet[..k - 1];
      SlottedPrefixDefaults(equips, ships, fleet, slots, k - 1);
    }
  }

  /**
    Passing each ship's default equipment as its explicit slots gives the same
    total as the overload over ship ids alone.
   */
  lemma SlottedFleetAirWithDefaults(equips: EquipTable, ships: ShipTable, fleet: seq<int>, slots: seq<seq<int>>)
    requires |fleet| <= |slots|
    requires forall i :: 0 <= i < |fleet| && fleet[i] in ships ==> ships[fleet[i]].defaultSlot == Some(slots[i])
    ensures SlottedFleetAir(equips, ships, fleet, slots) == ShipIdsAir(equips, ships, fleet)
  {
    SlottedPrefixDefaults(equips, ships, fleet, slots, |fleet|);
    assert fleet[..|fleet|] == fleet;
  }

  // ---------------------------------------------------------------------------
  // A live fleet.

  /** The live fleet total is the sum of the totals of any split of its positions. */
  lemma {:induction false} MembersAirAppend(equips: EquipTable, f: seq<Option<ShipInstance>>, g: seq<Option<ShipInstance>>)
    ensures MembersAir(equips, f + g) == MembersAir(equips, f) + MembersAir(equips, g)
  {
    if |g| == 0 {
      assert f + g == f;
    } else {
      var g' := g[..|g| - 1];
      assert (f + g)[..|f + g| - 1] == f + g';
      assert (f + g)[|f + g| - 1] == g[|g| - 1];
      MembersAirAppend(equips, f, g');
    }
  }

  /** An empty fleet position adds nothing. */
  lemma MembersAirSkipsEmpty(equips: EquipTable, f: seq<Option<ShipInstance>>, g: seq<Option<ShipInstance>>)
    ensures MembersAir(equips, f + [None] + g) == MembersAir(equips, f + g)
  {
    MembersAirAppend(equips, f + [None], g);
    MembersAirAppend(equips, f, [None]);
    MembersAirAppend(equips, f, g);
    var empty: seq<Option<ShipInstance>> := [None];
    assert empty[..0] == [];
  }

  /** A fleet total is the sum of its ships' own totals. */
  lemma MembersAirSingle(equips: EquipTable, f: seq<Option<ShipInstance>>, ship: ShipInstance)
    ensures MembersAir(equips, f + [Some(ship)]) == MembersAir(equips, f) + SlotsAir(equips, ship.slotMaster, ship.aircraft)
  {
    assert (f + [Some(ship)])[..|f|] == f;
  }
}
