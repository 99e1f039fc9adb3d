// What every engine operation keeps true of a roster built from fresh ids, and
// what each successful operation does to the pilot it is asked about.

module Invariants {
  import opened Types
  import opened Lookup
  import opened Engine

  // ---------------------------------------------------------------------------
  // The invariant

  predicate NoDup<T(==)>(xs: seq<T>)
  {
    forall i, j :: 0 <= i < j < |xs| ==> xs[i] != xs[j]
  }

  predicate DistinctPilotIds(ps: seq<Pilot>)
  {
    forall i, j :: 0 <= i < j < |ps| ==> ps[i].id != ps[j].id
  }

  predicate DistinctShipIds(ships: seq<PilotShip>)
  {
    forall i, j :: 0 <= i < j < |ships| ==> ships[i].id != ships[j].id
  }

  predicate Disjoint(a: seq<int>, b: seq<int>)
  {
    forall k :: k in a ==> k !in b
  }

  /** No two upgrade records of a ship claim a common slot index. */
  predicate SlotsExclusive(ups: seq<InstalledUpgrade>)
  {
    forall a, b :: 0 <= a < b < |ups| ==> Disjoint(ups[a].slotIndices, ups[b].slotIndices)
  }

  predicate ShipWellFormed(s: PilotShip)
  {
    SlotsExclusive(s.upgrades)
  }

  /** At most two ships with distinct instance ids, each slot-exclusive, and no ability
      unlocked twice. */
  predicate PilotWellFormed(p: Pilot)
  {
    && |p.ships| <= ShipLimit
    && DistinctShipIds(p.ships)
    && (forall i :: 0 <= i < |p.ships| ==> ShipWellFormed(p.ships[i]))
    && NoDup(p.unlockedAbilities)
  }

  predicate WellFormed(st: GameState)
  {
    && DistinctPilotIds(st.pilots)
    && forall i :: 0 <= i < |st.pilots| ==> PilotWellFormed(st.pilots[i])
  }

  /** The selected id, if any, is the id of a pilot on the roster. */
  predicate SelectionValid(st: GameState)
  {
    st.selectedPilotId.None? || FindPilot(st.pilots, st.selectedPilotId.value).Some?
  }

  // ---------------------------------------------------------------------------
  // Looking a pilot up after an update

  /** After an update, looking up the edited id gives the edited first match, and
      looking up any other id gives what it gave before. */
  lemma {:induction false} FindAfterEdit(ps: seq<Pilot>, ps': seq<Pilot>, id: string, e: PilotEdit, q: string)
    requires |ps'| == |ps|
    requires forall i :: 0 <= i < |ps| ==> ps'[i] == (if ps[i].id == id then ApplyEdit(ps[i], e) else ps[i])
    ensures q != id ==> FindPilot(ps', q) == FindPilot(ps, q)
    ensures q == id ==> FindPilot(ps', q) == (match FindPilot(ps, q) case None => None case Some(p) => Some(ApplyEdit(p, e)))
  {
    if ps != [] {
      assert ApplyEdit(ps[0], e).id == ps[0].id;
      if ps[0].id != q {
        FindAfterEdit(ps[1..], ps'[1..], id, e, q);
      }
    }
  }

  lemma ViewAfterUpdate(st: GameState, st': GameState, id: string, e: PilotEdit, q: string)
    requires Updated(st, st', id, e)
    ensures q != id ==> FindPilot(st'.pilots, q) == FindPilot(st.pilots, q)
    ensures q == id ==> FindPilot(st'.pilots, q) == (match FindPilot(st.pilots, q) case None => None case Some(p) => Some(ApplyEdit(p, e)))
  {
    FindAfterEdit(st.pilots, st'.pilots, id, e, q);
  }

  // ---------------------------------------------------------------------------
  // Sequence facts used below

  lemma {:induction false} WithoutShipKeepsDistinct(ships: seq<PilotShip>, shipId: string)
    requires DistinctShipIds(ships)
    ensures DistinctShipIds(WithoutShip(ships, shipId))
  {
    if ships != [] {
      WithoutShipKeepsDistinct(ships[1..], shipId);
      var rest := WithoutShip(ships[1..], shipId);
      if ships[0].id != shipId {
        assert forall j :: 0 <= j < |rest| ==> rest[j] in ships[1..];
        assert forall j :: 0 <= j < |rest| ==> ships[0].id != rest[j].id;
        assert WithoutShip(ships, shipId) == [ships[0]] + rest;
      }
    }
  }

  lemma {:induction false} WithoutUpgradeKeepsExclusive(ups: seq<InstalledUpgrade>, upgradeId: string)
    requires SlotsExclusive(ups)
    ensures SlotsExclusive(WithoutUpgrade(ups, upgradeId))
  {
    if ups != [] {
      WithoutUpgradeKeepsExclusive(ups[1..], upgradeId);
      var rest := WithoutUpgrade(ups[1..], upgradeId);
      if ups[0].upgradeId != upgradeId {
        forall j | 0 <= j < |rest| ensures Disjoint(ups[0].slotIndices, rest[j].slotIndices) {
          assert rest[j] in ups[1..];
          var m :| 0 <= m < |ups[1..]| && ups[1..][m] == rest[j];
          assert ups[m + 1] == rest[j];
        }
        assert WithoutUpgrade(ups, upgradeId) == [ups[0]] + rest;
      }
    }
  }

  /** With nothing of that upgrade installed, stripping it changes nothing. */
  lemma {:induction false} WithoutAbsentUpgrade(ups: seq<InstalledUpgrade>, upgradeId: string)
    requires forall i :: 0 <= i < |ups| ==> ups[i].upgradeId != upgradeId
    ensures WithoutUpgrade(ups, upgradeId) == ups
  {
    if ups != [] {
      WithoutAbsentUpgrade(ups[1..], upgradeId);
      assert [ups[0]] + ups[1..] == ups;
    }
  }

  lemma AppendKeepsExclusive(ups: seq<InstalledUpgrade>, u: InstalledUpgrade)
    requires SlotsExclusive(ups)
    requires forall a :: 0 <= a < |ups| ==> Disjoint(ups[a].slotIndices, u.slotIndices)
    ensures SlotsExclusive(ups + [u])
  {
    var ups' := ups + [u];
    forall a, b | 0 <= a < b < |ups'| ensures Disjoint(ups'[a].slotIndices, ups'[b].slotIndices) {
      if b < |ups| {
        assert ups'[a] == ups[a] && ups'[b] == ups[b];
      }
    }
  }

  // ---------------------------------------------------------------------------
  // Preservation through a single-pilot update

  /** An update keeps the roster well formed when the edit keeps the edited pilots well formed. */
  lemma UpdateKeepsWellFormed(st: GameState, st': GameState, id: string, e: PilotEdit)
    requires WellFormed(st)
    requires Updated(st, st', id, e)
    requires forall i :: 0 <= i < |st.pilots| && st.pilots[i].id == id ==> PilotWellFormed(ApplyEdit(st.pilots[i], e))
    ensures WellFormed(st')
  {
    forall i | 0 <= i < |st.pilots| ensures st'.pilots[i].id == st.pilots[i].id {
      assert ApplyEdit(st.pilots[i], e).id == st.pilots[i].id;
    }
  }

  lemma UpdateKeepsSelectionValid(st: GameState, st': GameState, id: string, e: PilotEdit)
    requires SelectionValid(st)
    requires Updated(st, st', id, e)
    ensures SelectionValid(st')
  {
    if st.selectedPilotId.Some? {
      ViewAfterUpdate(st, st', id, e, st.selectedPilotId.value);
    }
  }

  /** With distinct ids, the pilots an update edits are exactly the one the guard looked at. */
  lemma MatchIsFound(ps: seq<Pilot>, id: string, i: int)
    requires DistinctPilotIds(ps)
    requires 0 <= i < |ps| && ps[i].id == id
    ensures FindPilot(ps, id) == Some(ps[i])
  {
    FindPilotUnique(ps, i);
  }

  lemma ShipMatchIsFound(ships: seq<PilotShip>, id: string, i: int)
    requires DistinctShipIds(ships)
    requires 0 <= i < |ships| && ships[i].id == id
    ensures FindPilotShip(ships, id) == Some(ships[i])
  {
    FindPilotShipUnique(ships, i);
  }

  // ---------------------------------------------------------------------------
  // Every operation keeps the roster well formed

  /** Creating a pilot under an id no pilot has keeps the roster well formed and the
      selection valid. */
  lemma CreatePilotKeepsWellFormed(st: GameState, freshId: string, name: string, career: string)
    requires WellFormed(st)
    requires forall i :: 0 <= i < |st.pilots| ==> st.pilots[i].id != freshId
    ensures WellFormed(CreatePilot(st, freshId, name, career))
    ensures SelectionValid(CreatePilot(st, freshId, name, career))
    ensures FindPilot(CreatePilot(st, freshId, name, career).pilots, freshId) == Some(NewPilot(freshId, name, career))
  {
    var r := CreatePilot(st, freshId, name, career);
    FindPilotUnique(r.pilots, |st.pilots|);
  }

  lemma {:induction false} WithoutPilotKeepsDistinct(ps: seq<Pilot>, id: string)
    requires DistinctPilotIds(ps)
    ensures DistinctPilotIds(WithoutPilot(ps, id))
  {
    if ps != [] {
      WithoutPilotKeepsDistinct(ps[1..], id);
      var rest := WithoutPilot(ps[1..], id);
      if ps[0].id != id {
        assert forall j :: 0 <= j < |rest| ==> rest[j] in ps[1..];
        assert WithoutPilot(ps, id) == [ps[0]] + rest;
      }
    }
  }

  /** Deleting a pilot keeps the roster well formed and a valid selection valid. */
  lemma DeletePilotKeepsInvariants(st: GameState, id: string)
    requires WellFormed(st) && SelectionValid(st)
    ensures WellFormed(DeletePilot(st, id))
    ensures SelectionValid(DeletePilot(st, id))
  {
    var r := DeletePilot(st, id);
    WithoutPilotKeepsDistinct(st.pilots, id);
    forall i | 0 <= i < |r.pilots| ensures PilotWellFormed(r.pilots[i]) {
      assert r.pilots[i] in st.pilots;
    }
    if r.selectedPilotId.Some? {
      if st.selectedPilotId == Some(id) {
        assert FindPilot(r.pilots, r.pilots[0].id).Some?;
      } else {
        var sel := st.selectedPilotId.value;
        var p := FindPilot(st.pilots, sel).value;
        assert p in r.pilots;
        var k :| 0 <= k < |r.pilots| && r.pilots[k] == p;
        assert r.pilots[k].id == sel;
      }
    }
  }

  /** Selecting keeps the selection valid exactly when the id is none or on the roster. */
  lemma SelectPilotValidity(st: GameState, id: Option<string>)
    ensures SelectionValid(SelectPilot(st, id)) <==> id.None? || FindPilot(st.pilots, id.value).Some?
  {
  }

  lemma AddXPKeepsWellFormed(st: GameState, id: string, amount: int)
    requires WellFormed(st)
    ensures WellFormed(AddXP(st, id, amount))
  {
    UpdateKeepsWellFormed(st, AddXP(st, id, amount), id, GainXp(amount));
  }

  lemma AddCreditsKeepsWellFormed(st: GameState, id: string, amount: int)
    requires WellFormed(st)
    ensures WellFormed(AddCredits(st, id, amount))
  {
    UpdateKeepsWellFormed(st, AddCredits(st, id, amount), id, GainCredits(amount));
  }

  lemma SpendCreditsKeepsWellFormed(st: GameState, id: string, amount: int)
    requires WellFormed(st)
    ensures WellFormed(SpendCredits(st, id, amount).state)
  {
    var r := SpendCredits(st, id, amount);
    if r.ok {
      UpdateKeepsWellFormed(st, r.state, id, GainCredits(-amount));
    }
  }

  lemma LevelUpKeepsWellFormed(cat: Catalog, st: GameState, id: string)
    requires WellFormed(st)
    ensures WellFormed(LevelUpPilot(cat, st, id).state)
  {
    var r := LevelUpPilot(cat, st, id);
    if r.ok {
      UpdateKeepsWellFormed(st, r.state, id, RaiseLevel);
    }
  }

  lemma LearnKeepsPilotWellFormed(p: Pilot, abilityId: string, cost: int)
    requires PilotWellFormed(p)
    requires abilityId !in p.unlockedAbilities
    ensures PilotWellFormed(ApplyEdit(p, Learn(abilityId, cost)))
  {
    var xs := p.unlockedAbilities + [abilityId];
    forall a, b | 0 <= a < b < |xs| ensures xs[a] != xs[b] {
      if b < |p.unlockedAbilities| {
        assert xs[a] == p.unlockedAbilities[a] && xs[b] == p.unlockedAbilities[b];
      } else {
        assert xs[a] in p.unlockedAbilities;
      }
    }
  }

  /** Unlocking never records an ability twice. */
  lemma UnlockAbilityKeepsWellFormed(cat: Catalog, st: GameState, id: string, abilityId: string)
    requires WellFormed(st)
    ensures WellFormed(UnlockAbility(cat, st, id, abilityId).state)
  {
    var r := UnlockAbility(cat, st, id, abilityId);
    if r.ok {
      var a := FindAbility(cat.abilities, abilityId).value;
      var e := Learn(abilityId, a.xpCost);
      forall i | 0 <= i < |st.pilots| && st.pilots[i].id == id ensures PilotWellFormed(ApplyEdit(st.pilots[i], e)) {
        MatchIsFound(st.pilots, id, i);
        LearnKeepsPilotWellFormed(st.pilots[i], abilityId, a.xpCost);
      }
      UpdateKeepsWellFormed(st, r.state, id, e);
    }
  }

  /** A purchase under a ship id the pilot does not use keeps the roster well formed;
      in particular no pilot ever owns more than two ships. */
  lemma PurchaseShipKeepsWellFormed(cat: Catalog, st: GameState, id: string, shipId: string, customName: string, freshId: string)
    requires WellFormed(st)
    requires forall i :: 0 <= i < |st.pilots| && st.pilots[i].id == id ==>
               forall j :: 0 <= j < |st.pilots[i].ships| ==> st.pilots[i].ships[j].id != freshId
    ensures WellFormed(PurchaseShip(cat, st, id, shipId, customName, freshId).state)
  {
    var r := PurchaseShip(cat, st, id, shipId, customName, freshId);
    if r.ok {
      var ship := FindShip(cat.ships, shipId).value;
      var e := AddShip(BoughtShip(freshId, shipId, customName, ship), ship.cost);
      forall i | 0 <= i < |st.pilots| && st.pilots[i].id == id ensures PilotWellFormed(ApplyEdit(st.pilots[i], e)) {
        MatchIsFound(st.pilots, id, i);
        var p := st.pilots[i];
        var ships := p.ships + [BoughtShip(freshId, shipId, customName, ship)];
        forall a, b | 0 <= a < b < |ships| ensures ships[a].id != ships[b].id {
          assert b == |p.ships|;
          assert ships[a] == p.ships[a];
        }
        forall k | 0 <= k < |ships| ensures ShipWellFormed(ships[k]) {
          if k < |p.ships| {
            assert ships[k] == p.ships[k];
          }
        }
      }
      UpdateKeepsWellFormed(st, r.state, id, e);
    }
  }

  lemma SellShipKeepsWellFormed(st: GameState, id: string, shipId: string, offerAmount: int)
    requires WellFormed(st)
    ensures WellFormed(SellShip(st, id, shipId, offerAmount).state)
  {
    var r := SellShip(st, id, shipId, offerAmount);
    if r.ok {
      var e := DropShip(shipId, offerAmount);
      forall i | 0 <= i < |st.pilots| && st.pilots[i].id == id ensures PilotWellFormed(ApplyEdit(st.pilots[i], e)) {
        var p := st.pilots[i];
        var ships := WithoutShip(p.ships, shipId);
        WithoutShipKeepsDistinct(p.ships, shipId);
        forall k | 0 <= k < |ships| ensures ShipWellFormed(ships[k]) {
          assert ships[k] in p.ships;
        }
      }
      UpdateKeepsWellFormed(st, r.state, id, e);
    }
  }

  /** The slots an accepted install request names are free on the owned ship, so no
      existing record of that ship lists any of them. */
  lemma AcceptedSlotsAreUnclaimed(cat: Catalog, st: GameState, id: string, shipId: string, slotIndices: seq<int>, t: SlotType)
    requires SlotsAccept(AvailableSlots(cat, st, id, shipId), slotIndices, t)
    requires FindPilot(st.pilots, id).Some?
    requires FindPilotShip(FindPilot(st.pilots, id).value.ships, shipId).Some?
    ensures var ps := FindPilotShip(FindPilot(st.pilots, id).value.ships, shipId).value;
      forall a :: 0 <= a < |ps.upgrades| ==> Disjoint(ps.upgrades[a].slotIndices, slotIndices)
  {
    var p := FindPilot(st.pilots, id).value;
    var ps := FindPilotShip(p.ships, shipId).value;
    var slots := AvailableSlots(cat, st, id, shipId);
    forall k | 0 <= k < |slotIndices| ensures !Claimed(ps.upgrades, slotIndices[k]) {
      assert SlotFree(slots, slotIndices[k], t);
      FindSlotPositional(slots, 0, slotIndices[k]);
    }
    forall a | 0 <= a < |ps.upgrades| ensures Disjoint(ps.upgrades[a].slotIndices, slotIndices) {
      assert ps.upgrades[a] in ps.upgrades;
    }
  }

  /** Fitting a record whose slots no record of the target ship claims keeps the pilot
      well formed. */
  lemma FitKeepsPilotWellFormed(p: Pilot, shipId: string, rec: InstalledUpgrade, cost: int)
    requires PilotWellFormed(p)
    requires forall k :: 0 <= k < |p.ships| && p.ships[k].id == shipId ==>
               forall a :: 0 <= a < |p.ships[k].upgrades| ==> Disjoint(p.ships[k].upgrades[a].slotIndices, rec.slotIndices)
    ensures PilotWellFormed(ApplyEdit(p, EditShip(shipId, Fit(rec), cost)))
  {
    var ships := EditShips(p.ships, shipId, Fit(rec));
    forall k | 0 <= k < |ships| ensures ShipWellFormed(ships[k]) {
      if p.ships[k].id == shipId {
        AppendKeepsExclusive(p.ships[k].upgrades, rec);
      }
    }
  }

  /** An install keeps every ship slot-exclusive: no slot index is ever claimed by two
      records of one ship. */
  lemma InstallUpgradeKeepsWellFormed(cat: Catalog, st: GameState, id: string, shipId: string, upgradeId: string, slotIndices: seq<int>)
    requires WellFormed(st)
    ensures WellFormed(InstallUpgrade(cat, st, id, shipId, upgradeId, slotIndices).state)
  {
    var r := InstallUpgrade(cat, st, id, shipId, upgradeId, slotIndices);
    if r.ok {
      var u := FindUpgrade(cat.upgrades, upgradeId).value;
      var rec := InstalledUpgrade(upgradeId, slotIndices);
      var e := EditShip(shipId, Fit(rec), u.cost);
      forall i | 0 <= i < |st.pilots| && st.pilots[i].id == id ensures PilotWellFormed(ApplyEdit(st.pilots[i], e)) {
        MatchIsFound(st.pilots, id, i);
        var p := st.pilots[i];
        forall k | 0 <= k < |p.ships| && p.ships[k].id == shipId
          ensures forall a :: 0 <= a < |p.ships[k].upgrades| ==> Disjoint(p.ships[k].upgrades[a].slotIndices, rec.slotIndices)
        {
          ShipMatchIsFound(p.ships, shipId, k);
          AcceptedSlotsAreUnclaimed(cat, st, id, shipId, slotIndices, u.slotType);
        }
        FitKeepsPilotWellFormed(p, shipId, rec, u.cost);
      }
      UpdateKeepsWellFormed(st, r.state, id, e);
    }
  }

  lemma RemoveUpgradeKeepsWellFormed(st: GameState, id: string, shipId: string, upgradeId: string)
    requires WellFormed(st)
    ensures WellFormed(RemoveUpgrade(st, id, shipId, upgradeId))
  {
    var e := EditShip(shipId, Strip(upgradeId), 0);
    forall i | 0 <= i < |st.pilots| && st.pilots[i].id == id ensures PilotWellFormed(ApplyEdit(st.pilots[i], e)) {
      var p := st.pilots[i];
      var ships := EditShips(p.ships, shipId, Strip(upgradeId));
      forall k | 0 <= k < |ships| ensures ShipWellFormed(ships[k]) {
        assert ShipWellFormed(p.ships[k]);
        WithoutUpgradeKeepsExclusive(p.ships[k].upgrades, upgradeId);
      }
    }
    UpdateKeepsWellFormed(st, RemoveUpgrade(st, id, shipId, upgradeId), id, e);
  }

  // ---------------------------------------------------------------------------
  // What a successful operation does to the pilot it names

  /** A level-up raises the level by exactly one, keeps the xp, and only happens with at
      least the xp the next row of the career table asks for. */
  lemma LevelUpRaisesLevelByOne(cat: Catalog, st: GameState, id: string)
    ensures var r := LevelUpPilot(cat, st, id);
      r.ok ==> var p := FindPilot(st.pilots, id).value;
        && p.xp >= NextLevel(cat, p).value.xpRequired
        && FindPilot(r.state.pilots, id) == Some(p.(level := p.level + 1))
  {
    var r := LevelUpPilot(cat, st, id);
    if r.ok {
      ViewAfterUpdate(st, r.state, id, RaiseLevel, id);
    }
  }

  /** Unlocking spends exactly the ability's xp cost, appends its id, and adds exactly its
      threat to the pilot's ability threat. */
  lemma UnlockAbilityEffect(cat: Catalog, st: GameState, id: string, abilityId: string)
    ensures var r := UnlockAbility(cat, st, id, abilityId);
      r.ok ==> var p := FindPilot(st.pilots, id).value;
               var a := FindAbility(cat.abilities, abilityId).value;
               var p' := FindPilot(r.state.pilots, id).value;
        && FindPilot(r.state.pilots, id).Some?
        && p'.xp == p.xp - a.xpCost && p'.xp >= 0
        && p'.unlockedAbilities == p.unlockedAbilities + [abilityId]
        && AbilitiesThreat(cat.abilities, p'.unlockedAbilities) == AbilitiesThreat(cat.abilities, p.unlockedAbilities) + a.threatValue
  {
    var r := UnlockAbility(cat, st, id, abilityId);
    if r.ok {
      var p := FindPilot(st.pilots, id).value;
      var a := FindAbility(cat.abilities, abilityId).value;
      ViewAfterUpdate(st, r.state, id, Learn(abilityId, a.xpCost), id);
      var ids := p.unlockedAbilities + [abilityId];
      assert ids[..|ids| - 1] == p.unlockedAbilities;
    }
  }
}
