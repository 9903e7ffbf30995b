/** Properties of the day and night attack-kind classifiers. */
module AttackKindProperties {
  import opened MasterData
  import opened AttackKind

  // ---------------------------------------------------------------------------
  // Counting.

  lemma {:induction false} CountAppend(equips: EquipTable, s: seq<int>, t: seq<int>, cats: set<int>)
    ensures Count(equips, s + t, cats) == Count(equips, s, cats) + Count(equips, t, cats)
  {
    if |t| == 0 {
      assert s + t == s;
    } else {
      var t' := t[..|t| - 1];
      assert (s + t)[..|s + t| - 1] == s + t';
      assert (s + t)[|s + t| - 1] == t[|t| - 1];
      CountAppend(equips, s, t', cats);
    }
  }

  /** A count depends on which items are carried, not on the slots they are in. */
  lemma {:induction false} CountPermutation(equips: EquipTable, s: seq<int>, t: seq<int>, cats: set<int>)
    requires multiset(s) == multiset(t)
    ensures Count(equips, s, cats) == Count(equips, t, cats)
    decreases |s|
  {
    if |s| == 0 {
      assert |t| == |multiset(t)| == 0;
    } else {
      var n := |s| - 1;
      var x := s[n];
      assert s == s[..n] + [x];
      assert x in multiset(t);
      var j :| 0 <= j < |t| && t[j] == x;
      var rest := t[..j] + t[j + 1..];
      assert t == t[..j] + [x] + t[j + 1..];
      assert multiset(t) == multiset(t[..j]) + multiset{x} + multiset(t[j + 1..]);
      assert multiset(s) == multiset(s[..n]) + multiset{x};
      assert multiset(rest) == multiset(t[..j]) + multiset(t[j + 1..]);
      assert multiset(s[..n]) == multiset(s) - multiset{x};
      assert multiset(rest) == multiset(t) - multiset{x};
      CountPermutation(equips, s[..n], rest, cats);
      CountAppend(equips, t[..j] + [x], t[j + 1..], cats);
      CountAppend(equips, t[..j], [x], cats);
      CountAppend(equips, t[..j], t[j + 1..], cats);
      assert [x][..0] == [];
    }
  }

  lemma FirstSlotCounted(equips: EquipTable, s: seq<int>, cats: set<int>)
    requires |s| > 0 && HasCategory(equips, s[0], cats)
    ensures Count(equips, s, cats) >= 1
  {
    assert s == [s[0]] + s[1..];
    CountAppend(equips, [s[0]], s[1..], cats);
    assert [s[0]][..0] == [];
  }

  // ---------------------------------------------------------------------------
  // Day: the equipment cascade.

  /** The day equipment rules fire exactly when a recon plane is carried with two main guns, or a main and a secondary gun. */
  lemma DayCutInFires(c: DayCounts)
    ensures DayCutIn(c).Some? <==> c.recon > 0 && (c.mainGun >= 2 || (c.mainGun >= 1 && c.subGun >= 1))
  {
  }

  /** First-match order 6, 5, 4, 3, 2, each code with the exact condition under which it wins. */
  lemma DayCutInExact(c: DayCounts)
    ensures DayCutIn(c) == Some(6) <==> c.recon > 0 && c.mainGun == 2 && c.apShell == 1
    ensures DayCutIn(c) == Some(5) <==> c.recon > 0 && c.mainGun == 1 && c.subGun == 1 && c.apShell == 1
    ensures DayCutIn(c) == Some(4) <==>
      c.recon > 0 && c.mainGun == 1 && c.subGun == 1 && c.radar == 1 && c.apShell != 1
    ensures DayCutIn(c) == Some(3) <==>
      c.recon > 0 && c.mainGun >= 1 && c.subGun >= 1 && !(c.mainGun == 2 && c.apShell == 1)
      && !(c.mainGun == 1 && c.subGun == 1 && (c.apShell == 1 || c.radar == 1))
    ensures DayCutIn(c) == Some(2) <==> c.recon > 0 && c.mainGun >= 2 && c.subGun == 0 && !(c.mainGun == 2 && c.apShell == 1)
    ensures DayCutIn(c).None? || DayCutIn(c).value in {2, 3, 4, 5, 6}
  {
  }

  /** When an equipment rule fires, the ship ids and the ship table play no part. */
  lemma DayEquipmentPrecedence(equips: EquipTable, ships: ShipTable, ships': ShipTable, s: seq<int>,
                               a: int, d: int, a': int, d': int)
    requires DayCutIn(DayTally(equips, s)).Some?
    ensures DayAttackKind(equips, ships, Some(s), a, d) == DayAttackKind(equips, ships', Some(s), a', d')
    ensures DayAttackKind(equips, ships, Some(s), a, d) == DayCutIn(DayTally(equips, s)).value
  {
  }

  /** Two main guns, one AP shell and a recon plane give the main gun + main gun cut-in whatever the ships. */
  lemma DayGunGunCutIn(equips: EquipTable, ships: ShipTable, s: seq<int>, a: int, d: int)
    requires Count(equips, s, ReconCategories) >= 1
    requires Count(equips, s, MainGunCategories) == 2
    requires Count(equips, s, ArmorPiercingCategories) == 1
    ensures DayAttackKind(equips, ships, Some(s), a, d) == 6
  {
  }

  /** With a recon plane and at least two main guns the result is a gun attack: 2, 3 or 6. */
  lemma DayReconWithMainGuns(equips: EquipTable, ships: ShipTable, s: seq<int>, a: int, d: int)
    requires Count(equips, s, ReconCategories) >= 1
    requires Count(equips, s, MainGunCategories) >= 2
    ensures DayAttackKind(equips, ships, Some(s), a, d) in {2, 3, 6}
  {
  }

  /** Without a recon plane the equipment does not matter at all by day. */
  lemma DayWithoutRecon(equips: EquipTable, ships: ShipTable, s: seq<int>, t: seq<int>, a: int, d: int)
    requires Count(equips, s, ReconCategories) == 0 && Count(equips, t, ReconCategories) == 0
    ensures DayAttackKind(equips, ships, Some(s), a, d) == DayAttackKind(equips, ships, Some(t), a, d)
  {
  }

  // ---------------------------------------------------------------------------
  // Day: the ship-type fallback.

  /** The day result when no equipment rule fires, case by case on the two ship types. */
  lemma DayShipTypeFallback(equips: EquipTable, ships: ShipTable, s: seq<int>, a: int, d: int)
    requires DayCutIn(DayTally(equips, s)).None?
    ensures a !in ships ==> DayAttackKind(equips, ships, Some(s), a, d) == 0
    ensures a in ships && ships[a].shipType in CarrierTypes ==> DayAttackKind(equips, ships, Some(s), a, d) == 7
    ensures a in ships && ships[a].shipType !in CarrierTypes && d in ships && ships[d].shipType in SubmarineTypes ==>
      DayAttackKind(equips, ships, Some(s), a, d) == (if ships[a].shipType in AntiSubAirTypes then 7 else 8)
    ensures a in ships && ships[a].shipType !in CarrierTypes && !(d in ships && ships[d].shipType in SubmarineTypes) ==>
      DayAttackKind(equips, ships, Some(s), a, d) == (if ships[a].shipType in SubmarineTypes then 9 else 0)
  {
  }

  /** An empty slot list leaves only the ship types: a carrier attacker always launches an air strike. */
  lemma DayEmptySlotsCarrier(equips: EquipTable, ships: ShipTable, a: int, d: int)
    requires a in ships && ships[a].shipType in CarrierTypes
    ensures DayAttackKind(equips, ships, Some([]), a, d) == 7
  {
  }

  // ---------------------------------------------------------------------------
  // Day: slot order and irrelevant equipment.

  /** The day result does not depend on the order of the slots. */
  lemma DayPermutationInvariant(equips: EquipTable, ships: ShipTable, s: seq<int>, t: seq<int>, a: int, d: int)
    requires multiset(s) == multiset(t)
    ensures DayAttackKind(equips, ships, Some(s), a, d) == DayAttackKind(equips, ships, Some(t), a, d)
  {
    CountPermutation(equips, s, t, ReconCategories);
    CountPermutation(equips, s, t, MainGunCategories);
    CountPermutation(equips, s, t, SecondaryGunCategories);
    CountPermutation(equips, s, t, ArmorPiercingCategories);
    CountPermutation(equips, s, t, RadarCategories);
  }

  /** Adding an item of a category the day tally ignores (a torpedo, say) leaves the day result unchanged. */
  lemma DayIgnoresOtherEquipment(equips: EquipTable, ships: ShipTable, s: seq<int>, x: int, a: int, d: int)
    requires !HasCategory(equips, x, ReconCategories + MainGunCategories + SecondaryGunCategories
                                     + ArmorPiercingCategories + RadarCategories)
    ensures DayAttackKind(equips, ships, Some(s + [x]), a, d) == DayAttackKind(equips, ships, Some(s), a, d)
  {
    assert (s + [x])[..|s|] == s;
  }

  // ---------------------------------------------------------------------------
  // Night: the equipment cascade.

  /** First-match order 3, 5, 4, 2, 1, each code with the exact condition under which it wins. */
  lemma NightCutInExact(c: NightCounts)
    ensures NightCutIn(c) == Some(3) <==> c.torpedo >= 2
    ensures NightCutIn(c) == Some(5) <==> c.torpedo <= 1 && c.mainGun >= 3
    ensures NightCutIn(c) == Some(4) <==> c.torpedo <= 1 && c.mainGun == 2 && c.subGun > 0
    ensures NightCutIn(c) == Some(2) <==> c.torpedo == 1 && (c.mainGun == 1 || (c.mainGun == 2 && c.subGun == 0))
    ensures NightCutIn(c) == Some(1) <==>
      || (c.mainGun == 2 && c.subGun == 0 && c.torpedo == 0)
      || (c.mainGun == 1 && c.subGun > 0 && c.torpedo == 0)
      || (c.mainGun == 0 && c.subGun >= 2 && c.torpedo <= 1)
    ensures NightCutIn(c).None? <==>
      || (c.mainGun == 0 && c.subGun <= 1 && c.torpedo <= 1)
      || (c.mainGun == 1 && c.subGun == 0 && c.torpedo == 0)
  {
  }

  /** Two torpedoes give the torpedo cut-in whatever else is carried and whatever the ships. */
  lemma NightTwoTorpedoes(equips: EquipTable, ships: ShipTable, s: seq<int>, a: int, d: int)
    requires Count(equips, s, TorpedoCategories) >= 2
    ensures NightAttackKind(equips, ships, Some(s), a, d) == 3
  {
  }

  /** When an equipment rule fires, the ship ids and the ship table play no part. */
  lemma NightEquipmentPrecedence(equips: EquipTable, ships: ShipTable, ships': ShipTable, s: seq<int>,
                                 a: int, d: int, a': int, d': int)
    requires NightCutIn(NightTally(equips, s)).Some?
    ensures NightAttackKind(equips, ships, Some(s), a, d) == NightAttackKind(equips, ships', Some(s), a', d')
    ensures NightAttackKind(equips, ships, Some(s), a, d) == NightCutIn(NightTally(equips, s)).value
  {
  }

  // ---------------------------------------------------------------------------
  // Night: the ship-type fallback and the first-slot torpedo check.

  /** The night result when no equipment rule fires, case by case on the two ship types. */
  lemma NightShipTypeFallback(equips: EquipTable, ships: ShipTable, s: seq<int>, a: int, d: int)
    requires NightCutIn(NightTally(equips, s)).None?
    ensures a !in ships ==> NightAttackKind(equips, ships, Some(s), a, d) == 0
    ensures a in ships && ships[a].shipType in CarrierTypes ==> NightAttackKind(equips, ships, Some(s), a, d) == 7
    ensures a in ships && ships[a].shipType !in CarrierTypes && d in ships && ships[d].shipType in SubmarineTypes ==>
      NightAttackKind(equips, ships, Some(s), a, d) == (if ships[a].shipType in AntiSubAirTypes then 7 else 8)
    ensures a in ships && ships[a].shipType !in CarrierTypes && !(d in ships && ships[d].shipType in SubmarineTypes)
            && ships[a].shipType in SubmarineTypes ==>
      NightAttackKind(equips, ships, Some(s), a, d) == 9
  {
  }

  /**
    For an attacker that is not a submarine, the night result is a torpedo
    attack exactly when the attacker resolves, is not a carrier, the defender is
    not a resolved submarine, the first slot holds a category-5 torpedo and the
    tallies are those no equipment rule fires on: no main gun, at most one
    secondary gun, exactly one torpedo.
   */
  lemma NightFirstSlotTorpedo(equips: EquipTable, ships: ShipTable, s: seq<int>, a: int, d: int)
    requires a !in ships || ships[a].shipType !in SubmarineTypes
    ensures NightAttackKind(equips, ships, Some(s), a, d) == 9 <==>
      && a in ships
      && ships[a].shipType !in CarrierTypes
      && !(d in ships && ships[d].shipType in SubmarineTypes)
      && FirstSlotTorpedo(equips, s)
      && Count(equips, s, MainGunCategories) == 0
      && Count(equips, s, SecondaryGunCategories) <= 1
      && Count(equips, s, TorpedoCategories) == 1
  {
    if FirstSlotTorpedo(equips, s) {
      FirstSlotCounted(equips, s, TorpedoCategories);
    }
  }

  /** The night result depends on the order of the slots only through the first slot. */
  lemma NightOrderOnlyThroughFirstSlot(equips: EquipTable, ships: ShipTable, s: seq<int>, t: seq<int>, a: int, d: int)
    requires multiset(s) == multiset(t)
    requires |s| > 0 && |t| > 0 ==> s[0] == t[0]
    ensures NightAttackKind(equips, ships, Some(s), a, d) == NightAttackKind(equips, ships, Some(t), a, d)
  {
    assert |s| == |multiset(s)| == |multiset(t)| == |t|;
    CountPermutation(equips, s, t, MainGunCategories);
    CountPermutation(equips, s, t, SecondaryGunCategories);
    CountPermutation(equips, s, t, TorpedoCategories);
  }

  /** The first slot does matter: moving the only torpedo out of it turns a torpedo attack into plain shelling. */
  lemma NightOrderMatters()
    ensures var equips := map[1 := Equip(Torpedo, 0)];
      var ships := map[100 := ShipMaster(2, None, [])];
      NightAttackKind(equips, ships, Some([1, -1]), 100, -1) == 9
      && NightAttackKind(equips, ships, Some([-1, 1]), 100, -1) == 0
  {
    var equips := map[1 := Equip(Torpedo, 0)];
    var s, t := [1, -1], [-1, 1];
    assert s[..1] == [1] && [1][..0] == [] && s[..0] == [];
    assert t[..1] == [-1] && [-1][..0] == [] && t[..0] == [];
    assert Count(equips, [1], TorpedoCategories) == 1;
    assert Count(equips, [1], MainGunCategories) == 0;
    assert Count(equips, [1], SecondaryGunCategories) == 0;
    assert NightTally(equips, s) == NightCounts(0, 0, 1);
    assert Count(equips, [-1], TorpedoCategories) == 0;
    assert Count(equips, [-1], MainGunCategories) == 0;
    assert Count(equips, [-1], SecondaryGunCategories) == 0;
    assert NightTally(equips, t) == NightCounts(0, 0, 1);
  }

  /** Adding an item the night tally ignores (recon, radar, AP shell, ...) after the first slot changes nothing. */
  lemma NightIgnoresOtherEquipment(equips: EquipTable, ships: ShipTable, s: seq<int>, x: int, a: int, d: int)
    requires |s| > 0
    requires !HasCategory(equips, x, MainGunCategories + SecondaryGunCategories + TorpedoCategories)
    ensures NightAttackKind(equips, ships, Some(s + [x]), a, d) == NightAttackKind(equips, ships, Some(s), a, d)
  {
    assert (s + [x])[..|s|] == s;
  }
}
