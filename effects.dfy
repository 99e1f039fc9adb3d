// What each successful engine operation does to the pilot (and ship) it names,
// seen through the same id lookups the source uses.

module Effects {
  import opened Types
  import opened Lookup
  import opened Engine
  import opened Invariants

  /** Editing the ships with an instance id edits the first of them, as a lookup sees it. */
  lemma {:induction false} FindShipAfterEdit(ships: seq<PilotShip>, shipId: string, e: ShipEdit)
    ensures FindPilotShip(EditShips(ships, shipId, e), shipId)
         == (match FindPilotShip(ships, shipId) case None => None case Some(s) => Some(ApplyShipEdit(s, e)))
  {
    if ships != [] {
      assert EditShips(ships, shipId, e)[1..] == EditShips(ships[1..], shipId, e);
      if ships[0].id != shipId {
        FindShipAfterEdit(ships[1..], shipId, e);
      }
    }
  }

  /** Spending takes exactly the amount and never leaves the pilot below zero credits
      when it started at or above the amount. */
  lemma SpendCreditsEffect(st: GameState, id: string, amount: int)
    ensures var r := SpendCredits(st, id, amount);
      r.ok ==> var p := FindPilot(st.pilots, id).value;
        FindPilot(r.state.pilots, id) == Some(p.(credits := p.credits - amount)) && p.credits - amount >= 0
  {
    var r := SpendCredits(st, id, amount);
    if r.ok {
      ViewAfterUpdate(st, r.state, id, GainCredits(-amount), id);
    }
  }

  /** A purchase takes exactly the catalog cost, appends one ship without upgrades,
      named by the custom name or else the catalog name, and never yields a third ship. */
  lemma PurchaseShipEffect(cat: Catalog, st: GameState, id: string, shipId: string, customName: string, freshId: string)
    ensures var r := PurchaseShip(cat, st, id, shipId, customName, freshId);
      r.ok ==> var p := FindPilot(st.pilots, id).value;
               var ship := FindShip(cat.ships, shipId).value;
               var p' := FindPilot(r.state.pilots, id).value;
        && FindPilot(r.state.pilots, id).Some?
        && p'.credits == p.credits - ship.cost >= 0
        && p'.ships[..|p.ships|] == p.ships
        && |p'.ships| == |p.ships| + 1 <= ShipLimit
        && p'.ships[|p.ships|].shipId == shipId
        && p'.ships[|p.ships|].upgrades == []
        && p'.ships[|p.ships|].name == (if customName == "" then ship.name else customName)
        && p'.xp == p.xp && p'.level == p.level && p'.unlockedAbilities == p.unlockedAbilities
  {
    var r := PurchaseShip(cat, st, id, shipId, customName, freshId);
    if r.ok {
      var ship := FindShip(cat.ships, shipId).value;
      ViewAfterUpdate(st, r.state, id, AddShip(BoughtShip(freshId, shipId, customName, ship), ship.cost), id);
    }
  }

  /** A purchase fails whenever the pilot already owns two ships, whatever the credits. */
  lemma PurchaseShipAtLimitFails(cat: Catalog, st: GameState, id: string, shipId: string, customName: string, freshId: string)
    requires FindPilot(st.pilots, id).Some? && |FindPilot(st.pilots, id).value.ships| >= ShipLimit
    ensures PurchaseShip(cat, st, id, shipId, customName, freshId) == Step(false, st)
  {
  }

  /** A sale adds exactly the offer and removes every ship with that instance id,
      keeping the other ships. */
  lemma SellShipEffect(st: GameState, id: string, shipId: string, offerAmount: int)
    ensures var r := SellShip(st, id, shipId, offerAmount);
      r.ok ==> var p := FindPilot(st.pilots, id).value;
               var p' := FindPilot(r.state.pilots, id).value;
        && FindPilot(r.state.pilots, id).Some?
        && p'.credits == p.credits + offerAmount
        && |p'.ships| < |p.ships|
        && (forall s :: s in p'.ships <==> s in p.ships && s.id != shipId)
        && p'.ships == WithoutShip(p.ships, shipId)
  {
    var r := SellShip(st, id, shipId, offerAmount);
    if r.ok {
      var p := FindPilot(st.pilots, id).value;
      ViewAfterUpdate(st, r.state, id, DropShip(shipId, offerAmount), id);
      var ps := FindPilotShip(p.ships, shipId).value;
      WithoutShipShorter(p.ships, shipId, ps);
    }
  }

  lemma {:induction false} WithoutShipShorter(ships: seq<PilotShip>, shipId: string, s: PilotShip)
    requires s in ships && s.id == shipId
    ensures |WithoutShip(ships, shipId)| < |ships|
  {
    if ships[0] != s {
      WithoutShipShorter(ships[1..], shipId, s);
    }
  }

  /** An install takes exactly the upgrade's cost, appends exactly one record to the
      owned ship, and raises that ship's upgrade threat by exactly the upgrade's threat. */
  lemma InstallUpgradeEffect(cat: Catalog, st: GameState, id: string, shipId: string, upgradeId: string, slotIndices: seq<int>)
    ensures var r := InstallUpgrade(cat, st, id, shipId, upgradeId, slotIndices);
      r.ok ==> var p := FindPilot(st.pilots, id).value;
               var u := FindUpgrade(cat.upgrades, upgradeId).value;
               var p' := FindPilot(r.state.pilots, id).value;
        && FindPilot(r.state.pilots, id).Some?
        && p'.credits == p.credits - u.cost >= 0
        && |slotIndices| == u.slotsRequired
        && (FindPilotShip(p.ships, shipId).Some? ==>
              var ps := FindPilotShip(p.ships, shipId).value;
              && FindPilotShip(p'.ships, shipId) == Some(ps.(upgrades := ps.upgrades + [InstalledUpgrade(upgradeId, slotIndices)]))
              && UpgradesThreat(cat.upgrades, ps.upgrades + [InstalledUpgrade(upgradeId, slotIndices)])
                 == UpgradesThreat(cat.upgrades, ps.upgrades) + u.threatValue)
  {
    var r := InstallUpgrade(cat, st, id, shipId, upgradeId, slotIndices);
    if r.ok {
      var p := FindPilot(st.pilots, id).value;
      var u := FindUpgrade(cat.upgrades, upgradeId).value;
      var rec := InstalledUpgrade(upgradeId, slotIndices);
      ViewAfterUpdate(st, r.state, id, EditShip(shipId, Fit(rec), u.cost), id);
      FindShipAfterEdit(p.ships, shipId, Fit(rec));
      if FindPilotShip(p.ships, shipId).Some? {
        var ups := FindPilotShip(p.ships, shipId).value.upgrades + [rec];
        assert ups[..|ups| - 1] == FindPilotShip(p.ships, shipId).value.upgrades;
      }
    }
  }

  /** Removal leaves the owned ship with exactly its records of other upgrades, in order
      (see WithoutUpgrade), and refunds nothing. */
  lemma RemoveUpgradeEffect(st: GameState, id: string, shipId: string, upgradeId: string)
    ensures var r := RemoveUpgrade(st, id, shipId, upgradeId);
      FindPilot(st.pilots, id).Some? ==>
        var p := FindPilot(st.pilots, id).value;
        && FindPilot(r.pilots, id) == Some(p.(ships := EditShips(p.ships, shipId, Strip(upgradeId))))
        && (FindPilotShip(p.ships, shipId).Some? ==>
              var ps := FindPilotShip(p.ships, shipId).value;
              FindPilotShip(EditShips(p.ships, shipId, Strip(upgradeId)), shipId)
                == Some(ps.(upgrades := WithoutUpgrade(ps.upgrades, upgradeId))))
  {
    var r := RemoveUpgrade(st, id, shipId, upgradeId);
    ViewAfterUpdate(st, r, id, EditShip(shipId, Strip(upgradeId), 0), id);
    if FindPilot(st.pilots, id).Some? {
      var p := FindPilot(st.pilots, id).value;
      FindShipAfterEdit(p.ships, shipId, Strip(upgradeId));
    }
  }

  /** Removing an upgrade that no matching ship carries is a silent no-op. */
  lemma RemoveAbsentUpgradeIsNoOp(st: GameState, id: string, shipId: string, upgradeId: string)
    requires forall i, k, a :: 0 <= i < |st.pilots| && st.pilots[i].id == id
               && 0 <= k < |st.pilots[i].ships| && st.pilots[i].ships[k].id == shipId
               && 0 <= a < |st.pilots[i].ships[k].upgrades|
               ==> st.pilots[i].ships[k].upgrades[a].upgradeId != upgradeId
    ensures RemoveUpgrade(st, id, shipId, upgradeId) == st
  {
    var r := RemoveUpgrade(st, id, shipId, upgradeId);
    var e := EditShip(shipId, Strip(upgradeId), 0);
    forall i | 0 <= i < |st.pilots| ensures r.pilots[i] == st.pilots[i] {
      if st.pilots[i].id == id {
        var p := st.pilots[i];
        var ships := EditShips(p.ships, shipId, Strip(upgradeId));
        forall k | 0 <= k < |p.ships| ensures ships[k] == p.ships[k] {
          if p.ships[k].id == shipId {
            WithoutAbsentUpgrade(p.ships[k].upgrades, upgradeId);
          }
        }
        assert ships == p.ships;
      }
    }
    assert r.pilots == st.pilots;
  }
}
