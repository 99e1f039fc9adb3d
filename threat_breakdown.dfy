// The threat breakdown of components/threat-breakdown.tsx: the pilot's level and
// ability threat, shared by both ship panels, and per ship the ship and upgrade
// threat and their total. The sums are left folds in the screen and right-to-left
// recursions in the engine's specification; they agree.

module ThreatBreakdown {
  import opened Types
  import opened Lookup
  import opened Engine
  import opened Invariants

  /** pilotThreat: the threat of the pilot's current level in its career table, 0 without a row;
      the screen reads the same row as the store's level threat. */
  function PilotThreat(cat: Catalog, p: Pilot): (r: int)
    ensures FindLevel(CareerLevels(cat, p.career), p.level).None? ==> r == 0
    ensures FindLevel(CareerLevels(cat, p.career), p.level).Some? ==>
              r == FindLevel(CareerLevels(cat, p.career), p.level).value.threatValue
  {
    LevelThreat(cat, p)
  }

  /** The left fold `ids.reduce((total, id) => total + threat(id), acc)`. */
  function FoldAbilityThreat(abilities: seq<Ability>, ids: seq<string>, acc: int): int
  {
    if ids == [] then acc
    else FoldAbilityThreat(abilities, ids[1..], acc + AbilityThreat(abilities, ids[0]))
  }

  /** The left fold over installed records. */
  function FoldUpgradeThreat(upgrades: seq<Upgrade>, ups: seq<InstalledUpgrade>, acc: int): int
  {
    if ups == [] then acc
    else FoldUpgradeThreat(upgrades, ups[1..], acc + UpgradeThreat(upgrades, ups[0].upgradeId))
  }

  lemma {:induction false} AbilitiesThreatFront(abilities: seq<Ability>, ids: seq<string>)
    requires ids != []
    ensures AbilitiesThreat(abilities, ids) == AbilityThreat(abilities, ids[0]) + AbilitiesThreat(abilities, ids[1..])
    decreases |ids|
  {
    if |ids| == 1 {
      assert ids[..0] == [] && ids[1..] == [];
    } else {
      var init := ids[..|ids| - 1];
      AbilitiesThreatFront(abilities, init);
      assert init[1..] == ids[1..][..|ids[1..]| - 1];
      assert init[0] == ids[0];
    }
  }

  lemma {:induction false} UpgradesThreatFront(upgrades: seq<Upgrade>, ups: seq<InstalledUpgrade>)
    requires ups != []
    ensures UpgradesThreat(upgrades, ups) == UpgradeThreat(upgrades, ups[0].upgradeId) + UpgradesThreat(upgrades, ups[1..])
    decreases |ups|
  {
    if |ups| == 1 {
      assert ups[..0] == [] && ups[1..] == [];
    } else {
      var init := ups[..|ups| - 1];
      UpgradesThreatFront(upgrades, init);
      assert init[1..] == ups[1..][..|ups[1..]| - 1];
      assert init[0] == ups[0];
    }
  }

  /** The screen's fold of ability threat equals the engine's sum. */
  lemma {:induction false} FoldAbilityThreatIsSum(abilities: seq<Ability>, ids: seq<string>, acc: int)
    ensures FoldAbilityThreat(abilities, ids, acc) == acc + AbilitiesThreat(abilities, ids)
    decreases |ids|
  {
    if ids != [] {
      FoldAbilityThreatIsSum(abilities, ids[1..], acc + AbilityThreat(abilities, ids[0]));
      AbilitiesThreatFront(abilities, ids);
    }
  }

  /** The screen's fold of upgrade threat equals the engine's sum. */
  lemma {:induction false} FoldUpgradeThreatIsSum(upgrades: seq<Upgrade>, ups: seq<InstalledUpgrade>, acc: int)
    ensures FoldUpgradeThreat(upgrades, ups, acc) == acc + UpgradesThreat(upgrades, ups)
    decreases |ups|
  {
    if ups != [] {
      FoldUpgradeThreatIsSum(upgrades, ups[1..], acc + UpgradeThreat(upgrades, ups[0].upgradeId));
      UpgradesThreatFront(upgrades, ups);
    }
  }

  /** abilitiesThreat: the summed threat of the unlocked abilities; unknown ids add nothing. */
  function AbilitiesThreatOf(cat: Catalog, p: Pilot): (r: int)
    ensures r == AbilitiesThreat(cat.abilities, p.unlockedAbilities)
  {
    FoldAbilityThreatIsSum(cat.abilities, p.unlockedAbilities, 0);
    FoldAbilityThreat(cat.abilities, p.unlockedAbilities, 0)
  }

  /** One ship panel's figures. */
  datatype Breakdown = Breakdown(shipThreat: int, upgradesThreat: int, totalThreat: int)

  /** getShipThreatBreakdown: zeros without a ship; otherwise the catalog ship's threat, the
      summed upgrade threat, and the total with the pilot's shared threat. */
  function ShipThreatBreakdown(cat: Catalog, p: Pilot, pilotShip: Option<PilotShip>): (r: Breakdown)
    ensures pilotShip.None? ==> r == Breakdown(0, 0, 0)
    ensures pilotShip.Some? ==>
              && r.shipThreat == ShipThreat(cat.ships, pilotShip.value.shipId)
              && r.upgradesThreat == UpgradesThreat(cat.upgrades, pilotShip.value.upgrades)
              && r.totalThreat == PilotThreat(cat, p) + AbilitiesThreatOf(cat, p) + r.shipThreat + r.upgradesThreat
              && r.totalThreat == TotalThreat(cat, p, pilotShip.value)
  {
    match pilotShip
    case None => Breakdown(0, 0, 0)
    case Some(ps) =>
      var shipThreat := match FindShip(cat.ships, ps.shipId) case Some(s) => s.threatValue case None => 0;
      var upgradesThreat := FoldUpgradeThreat(cat.upgrades, ps.upgrades, 0);
      FoldUpgradeThreatIsSum(cat.upgrades, ps.upgrades, 0);
      Breakdown(shipThreat, upgradesThreat, PilotThreat(cat, p) + AbilitiesThreatOf(cat, p) + shipThreat + upgradesThreat)
  }

  /** The ship in position `k` of the pilot's list, if there is one (`pilot.ships[k]`). */
  function ShipAt(p: Pilot, k: nat): (r: Option<PilotShip>)
    ensures r.Some? <==> k < |p.ships|
    ensures r.Some? ==> r.value == p.ships[k]
  {
    if k < |p.ships| then Some(p.ships[k]) else None
  }

  /** The threat level a panel shows: the store's calculation for a present ship, else 0. */
  function PanelThreatLevel(cat: Catalog, st: GameState, p: Pilot, k: nat): (r: int)
    ensures |p.ships| <= k ==> r == 0
    ensures k < |p.ships| ==> r == ThreatLevel(cat, st, p.id, Some(p.ships[k].id))
  {
    match ShipAt(p, k)
    case Some(ps) => ThreatLevel(cat, st, p.id, Some(ps.id))
    case None => 0
  }

  /** Both panels show the same pilot and ability share; only ship and upgrades differ. */
  lemma PanelsShareThePilotPart(cat: Catalog, p: Pilot, a: PilotShip, b: PilotShip)
    ensures var x := ShipThreatBreakdown(cat, p, Some(a));
            var y := ShipThreatBreakdown(cat, p, Some(b));
      x.totalThreat - x.shipThreat - x.upgradesThreat == y.totalThreat - y.shipThreat - y.upgradesThreat
      == PilotThreat(cat, p) + AbilitiesThreat(cat.abilities, p.unlockedAbilities)
  {
  }

  /** For a well-formed roster, each present panel's total divided by 25 and rounded down
      is the threat level the store reports for that ship, and an absent panel shows 0. */
  lemma BreakdownAgreesWithThreatLevel(cat: Catalog, st: GameState, i: int, k: nat)
    requires WellFormed(st) && 0 <= i < |st.pilots|
    requires k < |st.pilots[i].ships| ==> st.pilots[i].ships[k].id != ""
    ensures var p := st.pilots[i];
      && (k < |p.ships| ==>
            PanelThreatLevel(cat, st, p, k) == ThreatFloor(ShipThreatBreakdown(cat, p, ShipAt(p, k)).totalThreat))
      && (k >= |p.ships| ==> PanelThreatLevel(cat, st, p, k) == 0 && ShipThreatBreakdown(cat, p, ShipAt(p, k)).totalThreat == 0)
  {
    var p := st.pilots[i];
    FindPilotUnique(st.pilots, i);
    if k < |p.ships| {
      FindPilotShipUnique(p.ships, k);
    }
  }
}
