// The hangar of components/pilot-hangar.tsx: the sell offer a d6 roll produces
// for an owned ship, the sale dialog (open, ship chosen, offer shown) and its
// accept and reject handlers, and the per-ship slot counts and threat shown on
// each card. The die is a parameter.

module PilotHangar {
  import opened Types
  import opened Lookup
  import opened Engine
  import ThreatBreakdown
  import Store

  /** The ceiling of n / d for a positive d, on all integers. */
  function CeilDiv(n: int, d: int): (r: int)
    requires d > 0
    ensures d * (r - 1) < n <= d * r
  {
    -((-n) / d)
  }

  /** The fraction of the catalog cost a roll offers: a third on 1-2, a half on 3-5,
      three quarters on 6, as (numerator, denominator). */
  function OfferFraction(roll: int): (r: (int, int))
    ensures r.1 > 0
    ensures roll <= 2 ==> r == (1, 3)
    ensures 2 < roll <= 5 ==> r == (1, 2)
    ensures 5 < roll ==> r == (3, 4)
  {
    if roll <= 2 then (1, 3) else if roll <= 5 then (1, 2) else (3, 4)
  }

  /** The fraction of the cost rounded up to a whole thousand: the least multiple of 1000
      that is at least cost * numerator / denominator. */
  function BaseOffer(cost: int, roll: int): (r: int)
    ensures var (num, den) := OfferFraction(roll);
      r % 1000 == 0 && den * r >= num * cost && den * (r - 1000) < num * cost
  {
    var (num, den) := OfferFraction(roll);
    CeilDiv(num * cost, den * 1000) * 1000
  }

  /** The summed catalog cost of the installed records; unknown upgrades add nothing. */
  function UpgradesCost(upgrades: seq<Upgrade>, ups: seq<InstalledUpgrade>): (r: int)
    ensures (forall u :: u in upgrades ==> u.cost >= 0) ==> r >= 0
  {
    if ups == [] then 0
    else UpgradesCost(upgrades, ups[..|ups| - 1])
         + (match FindUpgrade(upgrades, ups[|ups| - 1].upgradeId) case Some(u) => u.cost case None => 0)
  }

  /** A ship whose catalog id starts with "salvage". */
  predicate IsSalvage(ship: Ship)
    ensures IsSalvage(ship) <==> |ship.id| >= 7 && ship.id[..7] == "salvage"
  {
    "salvage" <= ship.id
  }

  /** The offer for owned ship `shipId` of pilot `p` on a d6 roll. */
  function SellOffer(cat: Catalog, p: Pilot, shipId: string, roll: int): (r: int)
    ensures FindPilotShip(p.ships, shipId).None? ==> r == 0
    ensures FindPilotShip(p.ships, shipId).Some? && FindShip(cat.ships, FindPilotShip(p.ships, shipId).value.shipId).None? ==> r == 0
    ensures FindPilotShip(p.ships, shipId).Some? && FindShip(cat.ships, FindPilotShip(p.ships, shipId).value.shipId).Some? ==>
              var ps := FindPilotShip(p.ships, shipId).value;
              var ship := FindShip(cat.ships, ps.shipId).value;
              && (IsSalvage(ship) ==> r == if roll == 6 then 2000 else 1000)
              && (!IsSalvage(ship) ==> r == BaseOffer(ship.cost, roll) + UpgradesCost(cat.upgrades, ps.upgrades) / 2)
  {
    match FindPilotShip(p.ships, shipId)
    case None => 0
    case Some(ps) =>
      match FindShip(cat.ships, ps.shipId)
      case None => 0
      case Some(ship) =>
        if IsSalvage(ship) then (if roll == 6 then 2000 else 1000)
        else BaseOffer(ship.cost, roll) + UpgradesCost(cat.upgrades, ps.upgrades) / 2
  }

  /** A salvage ship fetches 2000 on a 6 and 1000 otherwise, whatever is fitted to it. */
  lemma SalvageOffer(cat: Catalog, p: Pilot, shipId: string, roll: int)
    requires FindPilotShip(p.ships, shipId).Some?
    requires FindShip(cat.ships, FindPilotShip(p.ships, shipId).value.shipId).Some?
    requires IsSalvage(FindShip(cat.ships, FindPilotShip(p.ships, shipId).value.shipId).value)
    ensures SellOffer(cat, p, shipId, roll) == if roll == 6 then 2000 else 1000
  {
  }

  /** For a non-negative cost a better roll never offers less: the three fractions grow
      with the roll, and rounding up to thousands keeps their order. */
  lemma BaseOfferMonotone(cost: int, roll1: int, roll2: int)
    requires cost >= 0 && roll1 <= roll2
    ensures BaseOffer(cost, roll1) <= BaseOffer(cost, roll2)
  {
    var b1, b2 := BaseOffer(cost, roll1), BaseOffer(cost, roll2);
    // The better offer covers at least a third, a half or three quarters of the cost as
    // its band does, hence the first band's threshold; the first offer is the least
    // multiple of 1000 that meets that threshold.
    assert b2 * 3 >= cost && (2 < roll2 ==> b2 * 2 >= cost) && (5 < roll2 ==> b2 * 4 >= cost * 3);
    if roll1 <= 2 {
      assert (b1 - 1000) * 3 < cost;
    } else if roll1 <= 5 {
      assert (b1 - 1000) * 2 < cost;
    } else {
      assert (b1 - 1000) * 4 < cost * 3;
    }
    ThousandsOrder(b1, b2);
  }

  /** Two multiples of 1000 less than 1000 apart in this direction are in order. */
  lemma ThousandsOrder(a: int, b: int)
    requires a % 1000 == 0 && b % 1000 == 0 && a - 1000 < b
    ensures a <= b
  {
    assert a == a / 1000 * 1000 && b == b / 1000 * 1000;
  }

  /** Non-salvage offers are non-decreasing in the roll. */
  lemma SellOfferMonotone(cat: Catalog, p: Pilot, shipId: string, roll1: int, roll2: int)
    requires roll1 <= roll2
    requires FindPilotShip(p.ships, shipId).Some?
    requires FindShip(cat.ships, FindPilotShip(p.ships, shipId).value.shipId).Some?
    requires !IsSalvage(FindShip(cat.ships, FindPilotShip(p.ships, shipId).value.shipId).value)
    requires FindShip(cat.ships, FindPilotShip(p.ships, shipId).value.shipId).value.cost >= 0
    ensures SellOffer(cat, p, shipId, roll1) <= SellOffer(cat, p, shipId, roll2)
  {
    var ship := FindShip(cat.ships, FindPilotShip(p.ships, shipId).value.shipId).value;
    BaseOfferMonotone(ship.cost, roll1, roll2);
  }

  /** generateSellOffer: the base offer from the roll, then half of the summed upgrade cost
      (rounded down), accumulated over the installed records. */
  method GenerateSellOffer(cat: Catalog, p: Pilot, shipId: string, roll: int) returns (offer: int)
    requires 1 <= roll <= 6
    ensures offer == SellOffer(cat, p, shipId, roll)
  {
    var pilotShip := FindPilotShip(p.ships, shipId);
    if pilotShip.None? {
      return 0;
    }
    var ps := pilotShip.value;
    var catalogShip := FindShip(cat.ships, ps.shipId);
    if catalogShip.None? {
      return 0;
    }
    var ship := catalogShip.value;
    if "salvage" <= ship.id {
      return if roll == 6 then 2000 else 1000;
    }
    var baseOffer := 0;
    if roll <= 2 {
      baseOffer := CeilDiv(ship.cost, 3000) * 1000;
    } else if roll <= 5 {
      baseOffer := CeilDiv(ship.cost, 2000) * 1000;
    } else {
      baseOffer := CeilDiv(ship.cost * 3, 4000) * 1000;
    }
    var upgradesValue := 0;
    var ups := ps.upgrades;
    for k := 0 to |ups|
      invariant upgradesValue == UpgradesCost(cat.upgrades, ups[..k])
    {
      var upgrade := FindUpgrade(cat.upgrades, ups[k].upgradeId);
      if upgrade.Some? {
        upgradesValue := upgradesValue + upgrade.value.cost;
      }
      assert ups[..k + 1][..k] == ups[..k];
    }
    assert ups[..|ups|] == ups;
    offer := baseOffer + upgradesValue / 2;
  }

  // ---------------------------------------------------------------------------
  // Ship cards

  /** The filled slots among the resolved slots, in order. */
  function FilledSlots(slots: seq<SlotView>): (r: seq<SlotView>)
    ensures forall s :: s in r <==> s in slots && s.filled
    ensures |r| <= |slots|
  {
    if slots == [] then []
    else if slots[0].filled then [slots[0]] + FilledSlots(slots[1..])
    else FilledSlots(slots[1..])
  }

  /** Filtering keeps order and multiplicity, so the count a card shows is the sum over any split of its slots. */
  lemma {:induction false} FilledSlotsAppend(a: seq<SlotView>, b: seq<SlotView>)
    ensures FilledSlots(a + b) == FilledSlots(a) + FilledSlots(b)
  {
    if a == [] {
      assert a + b == b;
    } else {
      assert (a + b)[1..] == a[1..] + b;
      FilledSlotsAppend(a[1..], b);
    }
  }

  /** A single slot is kept whole or dropped; with `FilledSlotsAppend` this fixes the result of any list. */
  lemma FilledSlotsSingle(x: SlotView)
    ensures FilledSlots([x]) == if x.filled then [x] else []
  {
    assert [x][1..] == [];
  }

  /** The threat shown on a ship card: the catalog ship's threat plus its upgrades' threat. */
  function CardThreat(cat: Catalog, ps: PilotShip, ship: Ship): (r: int)
    ensures r == ship.threatValue + UpgradesThreat(cat.upgrades, ps.upgrades)
  {
    ThreatBreakdown.FoldUpgradeThreatIsSum(cat.upgrades, ps.upgrades, ship.threatValue);
    ThreatBreakdown.FoldUpgradeThreat(cat.upgrades, ps.upgrades, ship.threatValue)
  }

  /** A card's threat is the ship part of the breakdown, and with the pilot's shared part it
      makes the total the threat level is computed from. */
  lemma CardThreatIsShipPart(cat: Catalog, p: Pilot, ps: PilotShip)
    requires FindShip(cat.ships, ps.shipId).Some?
    ensures var b := ThreatBreakdown.ShipThreatBreakdown(cat, p, Some(ps));
      && CardThreat(cat, ps, FindShip(cat.ships, ps.shipId).value) == b.shipThreat + b.upgradesThreat
      && CardThreat(cat, ps, FindShip(cat.ships, ps.shipId).value)
         + LevelThreat(cat, p) + AbilitiesThreat(cat.abilities, p.unlockedAbilities) == TotalThreat(cat, p, ps)
  {
  }

  // ---------------------------------------------------------------------------
  // The sale dialog

  class SellDialog {
    const store: Store.GameStore
    const pilotId: string
    var open: bool
    var selectedShipForSale: Option<string>
    var sellOffer: int

    constructor(s: Store.GameStore, pilot: string)
      ensures store == s && pilotId == pilot
      ensures !open && selectedShipForSale == None && sellOffer == 0
    {
      store, pilotId := s, pilot;
      open, selectedShipForSale, sellOffer := false, None, 0;
    }

    /** handleSellClick: rolls the offer for the ship and opens the dialog on it. */
    method SellClick(shipId: string, roll: int)
      requires 1 <= roll <= 6
      requires FindPilot(store.state.pilots, pilotId).Some?
      modifies this
      ensures open && selectedShipForSale == Some(shipId)
      ensures sellOffer == SellOffer(store.cat, FindPilot(store.state.pilots, pilotId).value, shipId, roll)
    {
      var offer := GenerateSellOffer(store.cat, FindPilot(store.state.pilots, pilotId).value, shipId, roll);
      sellOffer := offer;
      selectedShipForSale := Some(shipId);
      open := true;
    }

    /** handleAcceptOffer: with a ship chosen, sells it for exactly the shown offer and resets
        the dialog; with none chosen (or the empty id), does nothing. */
    method AcceptOffer()
      requires store.Valid()
      modifies this, store
      ensures store.Valid()
      ensures old(selectedShipForSale).None? || old(selectedShipForSale).value == "" ==>
                store.state == old(store.state) && open == old(open)
                && selectedShipForSale == old(selectedShipForSale) && sellOffer == old(sellOffer)
      ensures old(selectedShipForSale).Some? && old(selectedShipForSale).value != "" ==>
                && store.state == SellShip(old(store.state), pilotId, old(selectedShipForSale).value, old(sellOffer)).state
                && !open && selectedShipForSale == None && sellOffer == 0
    {
      if selectedShipForSale.Some? && selectedShipForSale.value != "" {
        var _ := store.SellShip(pilotId, selectedShipForSale.value, sellOffer);
        open, selectedShipForSale, sellOffer := false, None, 0;
      }
    }

    /** handleRejectOffer: closes and resets the dialog without selling. */
    method RejectOffer()
      modifies this
      ensures !open && selectedShipForSale == None && sellOffer == 0
    {
      open, selectedShipForSale, sellOffer := false, None, 0;
    }
  }
}
