// The game store of lib/game-context.tsx: one mutable GameState that every
// operation replaces. The guarded updates delegate to the Engine transitions;
// the slot resolver, the install validation and the threat calculation are the
// source's loops, each proved equal to its Engine specification.

module Store {
  import opened Types
  import opened Lookup
  import Engine
  import opened Invariants

  /** Marking the slots of one more record: index i is claimed by the first a+1 records
      exactly when it is claimed by the first a or listed by record a. */
  lemma ClaimedExtend(ups: seq<InstalledUpgrade>, a: int, i: int)
    requires 0 <= a < |ups|
    ensures Engine.Claimed(ups[..a + 1], i) <==> Engine.Claimed(ups[..a], i) || i in ups[a].slotIndices
  {
    assert ups[..a + 1] == ups[..a] + [ups[a]];
    if Engine.Claimed(ups[..a], i) {
      var u :| u in ups[..a] && i in u.slotIndices;
      assert u in ups[..a + 1];
    }
  }

  class GameStore {
    /** The catalog tables (ships, upgrades, abilities, career tables) the store reads. */
    const cat: Catalog
    var state: GameState

    /** Every pilot id is unique and every pilot is well formed (see Invariants.WellFormed). */
    predicate Valid()
      reads this
    {
      WellFormed(state)
    }

    /** A fresh store: no pilots and no selection. */
    constructor(catalog: Catalog)
      ensures cat == catalog && state == GameState([], None) && Valid()
    {
      cat := catalog;
      state := GameState([], None);
    }

    /** `freshId` stands for the clock-derived id; it is assumed unused. */
    method CreatePilot(name: string, career: string, freshId: string)
      requires Valid()
      requires forall i :: 0 <= i < |state.pilots| ==> state.pilots[i].id != freshId
      modifies this
      ensures Valid() && SelectionValid(state)
      ensures state == Engine.CreatePilot(old(state), freshId, name, career)
    {
      CreatePilotKeepsWellFormed(state, freshId, name, career);
      state := Engine.CreatePilot(state, freshId, name, career);
    }

    method DeletePilot(pilotId: string)
      requires Valid()
      modifies this
      ensures Valid()
      ensures old(SelectionValid(state)) ==> SelectionValid(state)
      ensures state == Engine.DeletePilot(old(state), pilotId)
    {
      if SelectionValid(state) {
        DeletePilotKeepsInvariants(state, pilotId);
      } else {
        DeletePilotKeepsInvariants(state.(selectedPilotId := None), pilotId);
      }
      state := Engine.DeletePilot(state, pilotId);
    }

    method SelectPilot(pilotId: Option<string>)
      requires Valid()
      modifies this
      ensures Valid()
      ensures state == Engine.SelectPilot(old(state), pilotId)
    {
      state := Engine.SelectPilot(state, pilotId);
    }

    method AddXP(pilotId: string, amount: int)
      requires Valid()
      modifies this
      ensures Valid()
      ensures state == Engine.AddXP(old(state), pilotId, amount)
    {
      AddXPKeepsWellFormed(state, pilotId, amount);
      state := Engine.AddXP(state, pilotId, amount);
    }

    method AddCredits(pilotId: string, amount: int)
      requires Valid()
      modifies this
      ensures Valid()
      ensures state == Engine.AddCredits(old(state), pilotId, amount)
    {
      AddCreditsKeepsWellFormed(state, pilotId, amount);
      state := Engine.AddCredits(state, pilotId, amount);
    }

    method SpendCredits(pilotId: string, amount: int) returns (ok: bool)
      requires Valid()
      modifies this
      ensures Valid()
      ensures ok == Engine.SpendCredits(old(state), pilotId, amount).ok
      ensures state == Engine.SpendCredits(old(state), pilotId, amount).state
    {
      SpendCreditsKeepsWellFormed(state, pilotId, amount);
      var r := Engine.SpendCredits(state, pilotId, amount);
      ok, state := r.ok, r.state;
    }

    method LevelUpPilot(pilotId: string) returns (ok: bool)
      requires Valid()
      modifies this
      ensures Valid()
      ensures ok == Engine.LevelUpPilot(cat, old(state), pilotId).ok
      ensures state == Engine.LevelUpPilot(cat, old(state), pilotId).state
    {
      LevelUpKeepsWellFormed(cat, state, pilotId);
      var r := Engine.LevelUpPilot(cat, state, pilotId);
      ok, state := r.ok, r.state;
    }

    method UnlockAbility(pilotId: string, abilityId: string) returns (ok: bool)
      requires Valid()
      modifies this
      ensures Valid()
      ensures ok == Engine.UnlockAbility(cat, old(state), pilotId, abilityId).ok
      ensures state == Engine.UnlockAbility(cat, old(state), pilotId, abilityId).state
    {
      UnlockAbilityKeepsWellFormed(cat, state, pilotId, abilityId);
      var r := Engine.UnlockAbility(cat, state, pilotId, abilityId);
      ok, state := r.ok, r.state;
    }

    /** `freshId` stands for the clock-derived ship instance id; it is assumed unused by
        the buying pilot. */
    method PurchaseShip(pilotId: string, shipId: string, customName: string, freshId: string) returns (ok: bool)
      requires Valid()
      requires forall i :: 0 <= i < |state.pilots| && state.pilots[i].id == pilotId ==>
                 forall j :: 0 <= j < |state.pilots[i].ships| ==> state.pilots[i].ships[j].id != freshId
      modifies this
      ensures Valid()
      ensures ok == Engine.PurchaseShip(cat, old(state), pilotId, shipId, customName, freshId).ok
      ensures state == Engine.PurchaseShip(cat, old(state), pilotId, shipId, customName, freshId).state
    {
      PurchaseShipKeepsWellFormed(cat, state, pilotId, shipId, customName, freshId);
      var r := Engine.PurchaseShip(cat, state, pilotId, shipId, customName, freshId);
      ok, state := r.ok, r.state;
    }

    method SellShip(pilotId: string, shipId: string, offerAmount: int) returns (ok: bool)
      requires Valid()
      modifies this
      ensures Valid()
      ensures ok == Engine.SellShip(old(state), pilotId, shipId, offerAmount).ok
      ensures state == Engine.SellShip(old(state), pilotId, shipId, offerAmount).state
    {
      SellShipKeepsWellFormed(state, pilotId, shipId, offerAmount);
      var r := Engine.SellShip(state, pilotId, shipId, offerAmount);
      ok, state := r.ok, r.state;
    }

    /** The slot resolver: copies the base slots, appends one empty slot per bonus type of
        the pilot's current level, marks every in-range index an installed record lists,
        and numbers the slots by position. */
    method GetAvailableSlots(pilotId: string, shipId: string) returns (slots: seq<Engine.SlotView>)
      ensures slots == Engine.AvailableSlots(cat, state, pilotId, shipId)
    {
      var pilot := FindPilot(state.pilots, pilotId);
      if pilot.None? {
        return [];
      }
      var p := pilot.value;
      var pilotShip := FindPilotShip(p.ships, shipId);
      if pilotShip.None? {
        return [];
      }
      var ps := pilotShip.value;
      var catalogShip := FindShip(cat.ships, ps.shipId);
      if catalogShip.None? {
        return [];
      }
      var ship := catalogShip.value;
      var bonus := Engine.BonusSlots(cat, p);
      var layout := ship.baseSlots;
      var levelData := FindLevel(CareerLevels(cat, p.career), p.level);
      if levelData.Some? {
        for j := 0 to |bonus|
          invariant layout == Engine.Layout(ship.baseSlots, bonus[..j])
        {
          layout := layout + [ShipSlot(bonus[j], false)];
        }
        assert bonus[..|bonus|] == bonus;
      } else {
        assert layout == Engine.Layout(ship.baseSlots, bonus);
      }
      ghost var base := Engine.Layout(ship.baseSlots, bonus);
      var ups := ps.upgrades;
      for a := 0 to |ups|
        invariant |layout| == |base|
        invariant forall i :: 0 <= i < |layout| ==>
                    layout[i] == ShipSlot(base[i].slotType, base[i].filled || Engine.Claimed(ups[..a], i))
      {
        var idxs := ups[a].slotIndices;
        for k := 0 to |idxs|
          invariant |layout| == |base|
          invariant forall i :: 0 <= i < |layout| ==>
                      layout[i] == ShipSlot(base[i].slotType, base[i].filled || Engine.Claimed(ups[..a], i) || i in idxs[..k])
        {
          var idx := idxs[k];
          if 0 <= idx < |layout| {
            layout := layout[idx := layout[idx].(filled := true)];
          }
          assert idxs[..k + 1] == idxs[..k] + [idx];
        }
        assert idxs[..|idxs|] == idxs;
        forall i | 0 <= i < |layout|
          ensures layout[i] == ShipSlot(base[i].slotType, base[i].filled || Engine.Claimed(ups[..a + 1], i))
        {
          ClaimedExtend(ups, a, i);
        }
      }
      assert ups[..|ups|] == ups;
      slots := seq(|layout|, i requires 0 <= i < |layout| => Engine.SlotView(i, layout[i].slotType, layout[i].filled));
    }

    /** Validates the request against the resolved slots, index by index, before charging
        the upgrade's cost and appending the record. */
    method InstallUpgrade(pilotId: string, shipId: string, upgradeId: string, slotIndices: seq<int>) returns (ok: bool)
      requires Valid()
      modifies this
      ensures Valid()
      ensures ok == Engine.InstallUpgrade(cat, old(state), pilotId, shipId, upgradeId, slotIndices).ok
      ensures state == Engine.InstallUpgrade(cat, old(state), pilotId, shipId, upgradeId, slotIndices).state
    {
      var pilot := FindPilot(state.pilots, pilotId);
      var upgrade := FindUpgrade(cat.upgrades, upgradeId);
      if pilot.None? || upgrade.None? || pilot.value.credits < upgrade.value.cost {
        return false;
      }
      var u := upgrade.value;
      var slots := GetAvailableSlots(pilotId, shipId);
      if |slotIndices| != u.slotsRequired {
        return false;
      }
      for k := 0 to |slotIndices|
        invariant forall j :: 0 <= j < k ==> Engine.SlotFree(slots, slotIndices[j], u.slotType)
      {
        var slot := Engine.FindSlot(slots, slotIndices[k]);
        if slot.None? || slot.value.filled || slot.value.slotType != u.slotType {
          return false;
        }
      }
      InstallUpgradeKeepsWellFormed(cat, state, pilotId, shipId, upgradeId, slotIndices);
      state := state.(pilots := Engine.UpdatePilots(state.pilots, pilotId,
                 Engine.EditShip(shipId, Engine.Fit(InstalledUpgrade(upgradeId, slotIndices)), u.cost)));
      ok := true;
    }

    method RemoveUpgrade(pilotId: string, shipId: string, upgradeId: string)
      requires Valid()
      modifies this
      ensures Valid()
      ensures state == Engine.RemoveUpgrade(old(state), pilotId, shipId, upgradeId)
    {
      RemoveUpgradeKeepsWellFormed(state, pilotId, shipId, upgradeId);
      state := Engine.RemoveUpgrade(state, pilotId, shipId, upgradeId);
    }

    /** Accumulates level, ability, ship and upgrade threat, then divides by 25 rounding
        down; 0 without the pilot, a ship id or the owned ship. */
    method CalculateThreatLevel(pilotId: string, shipId: Option<string>) returns (level: int)
      ensures level == Engine.ThreatLevel(cat, state, pilotId, shipId)
    {
      var pilot := FindPilot(state.pilots, pilotId);
      if pilot.None? {
        return 0;
      }
      if shipId.None? || shipId.value == "" {
        return 0;
      }
      var p := pilot.value;
      var pilotShip := FindPilotShip(p.ships, shipId.value);
      if pilotShip.None? {
        return 0;
      }
      var ps := pilotShip.value;
      var totalThreat := 0;
      var levelData := FindLevel(CareerLevels(cat, p.career), p.level);
      if levelData.Some? {
        totalThreat := totalThreat + levelData.value.threatValue;
      }
      var ids := p.unlockedAbilities;
      for k := 0 to |ids|
        invariant totalThreat == Engine.LevelThreat(cat, p) + Engine.AbilitiesThreat(cat.abilities, ids[..k])
      {
        var ability := FindAbility(cat.abilities, ids[k]);
        if ability.Some? {
          totalThreat := totalThreat + ability.value.threatValue;
        }
        assert ids[..k + 1][..k] == ids[..k];
      }
      assert ids[..|ids|] == ids;
      var ship := FindShip(cat.ships, ps.shipId);
      if ship.Some? {
        totalThreat := totalThreat + ship.value.threatValue;
      }
      var ups := ps.upgrades;
      ghost var before := totalThreat;
      for k := 0 to |ups|
        invariant totalThreat == before + Engine.UpgradesThreat(cat.upgrades, ups[..k])
      {
        var upgrade := FindUpgrade(cat.upgrades, ups[k].upgradeId);
        if upgrade.Some? {
          totalThreat := totalThreat + upgrade.value.threatValue;
        }
        assert ups[..k + 1][..k] == ups[..k];
      }
      assert ups[..|ups|] == ups;
      level := totalThreat / Engine.ThreatDivisor;
    }
  }
}
