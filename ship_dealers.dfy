// The dealer screen of components/ship-dealers.tsx: the dealer's listing, the
// ship-limit and affordability gating, the junkyard's d8 salvage table, and the
// purchase modal's state (ship being bought, custom name, salvage roll). The
// dice are parameters.

module ShipDealers {
  import opened Types
  import opened Lookup
  import opened Engine
  import PilotHangar
  import Store

  /** The junkyard's ship table for a d8: 1-2, 3-4, 5-7 and 8. */
  function SalvageShipId(shipRoll: int): (r: string)
    ensures "salvage" <= r
    ensures shipRoll <= 2 ==> r == "salvage1"
    ensures 2 < shipRoll <= 4 ==> r == "salvage2"
    ensures 4 < shipRoll <= 7 ==> r == "salvage3"
    ensures 7 < shipRoll ==> r == "salvage4"
  {
    if shipRoll <= 2 then "salvage1"
    else if shipRoll <= 4 then "salvage2"
    else if shipRoll <= 7 then "salvage3"
    else "salvage4"
  }

  /** Whatever the die shows, the catalog ship a salvage roll names is sold back under the
      salvage rule (2000 on a 6, else 1000). */
  lemma SalvageRollSellsAsSalvage(cat: Catalog, shipRoll: int, p: Pilot, ownedId: string, sellRoll: int)
    requires FindPilotShip(p.ships, ownedId).Some?
    requires FindPilotShip(p.ships, ownedId).value.shipId == SalvageShipId(shipRoll)
    requires FindShip(cat.ships, SalvageShipId(shipRoll)).Some?
    ensures PilotHangar.SellOffer(cat, p, ownedId, sellRoll) == if sellRoll == 6 then 2000 else 1000
  {
    PilotHangar.SalvageOffer(cat, p, ownedId, sellRoll);
  }

  /** The pilot already owns two ships or more. */
  predicate HasReachedShipLimit(p: Pilot)
    ensures HasReachedShipLimit(p) <==> |p.ships| >= ShipLimit
  {
    |p.ships| >= 2
  }

  /** The listing's purchase button is enabled: buying would leave the credits non-negative
      and the pilot within the ship limit. */
  predicate CanPurchase(p: Pilot, ship: Ship)
    ensures CanPurchase(p, ship) ==> p.credits - ship.cost >= 0 && |p.ships| + 1 <= ShipLimit
  {
    p.credits >= ship.cost && !HasReachedShipLimit(p)
  }

  /** The screen's limit is the engine's, and for a catalog ship found by its id the
      purchase button is enabled exactly when the engine would accept the purchase. */
  lemma CanPurchaseMatchesEngine(cat: Catalog, st: GameState, id: string, ship: Ship, customName: string, freshId: string)
    requires FindPilot(st.pilots, id).Some?
    requires FindShip(cat.ships, ship.id) == Some(ship)
    ensures HasReachedShipLimit(FindPilot(st.pilots, id).value) <==> |FindPilot(st.pilots, id).value.ships| >= ShipLimit
    ensures CanPurchase(FindPilot(st.pilots, id).value, ship) <==> PurchaseShip(cat, st, id, ship.id, customName, freshId).ok
  {
  }

  /** The catalog ships the dealer stocks, in catalog order; none without a dealer. */
  function DealerShips(ships: seq<Ship>, dealer: Option<ShipDealer>): (r: seq<Ship>)
    ensures dealer.None? ==> r == []
    ensures forall s :: s in r <==> s in ships && dealer.Some? && s.id in dealer.value.shipIds
    ensures |r| <= |ships|
  {
    if ships == [] then []
    else if dealer.Some? && ships[0].id in dealer.value.shipIds then [ships[0]] + DealerShips(ships[1..], dealer)
    else DealerShips(ships[1..], dealer)
  }

  /** The listing follows the catalog: listing a concatenation lists each part in turn. */
  lemma {:induction false} DealerShipsAppend(a: seq<Ship>, b: seq<Ship>, dealer: Option<ShipDealer>)
    ensures DealerShips(a + b, dealer) == DealerShips(a, dealer) + DealerShips(b, dealer)
  {
    if a == [] {
      assert a + b == b;
    } else {
      assert (a + b)[1..] == a[1..] + b;
      DealerShipsAppend(a[1..], b, dealer);
    }
  }

  /** A single ship is kept whole or dropped; with `DealerShipsAppend` this fixes the result of any list. */
  lemma DealerShipsSingle(x: Ship, dealer: Option<ShipDealer>)
    ensures DealerShips([x], dealer) == if dealer.Some? && x.id in dealer.value.shipIds then [x] else []
  {
    assert [x][1..] == [];
  }

  /** The name a confirmed purchase passes: the typed name, or the catalog name when the
      field is empty. Passing it through the engine's own fallback changes nothing. */
  lemma PurchaseNameIsKept(customName: string, catalogName: string)
    ensures ShipName(ShipName(customName, catalogName), catalogName) == ShipName(customName, catalogName)
    ensures customName != "" ==> ShipName(customName, catalogName) == customName
  {
  }

  /** The junkyard result kept on screen: the ship the d8 named and the d6 upgrades roll. */
  datatype SalvageRoll = SalvageRoll(shipId: string, upgradesRoll: int)

  class DealerScreen {
    const store: Store.GameStore
    const pilotId: string
    var selectedDealer: string
    var purchasingShip: Option<string>
    var customName: string
    var junkyardRoll: Option<SalvageRoll>

    /** The screen opens on the first dealer with nothing being bought. */
    constructor(s: Store.GameStore, pilot: string)
      requires |s.cat.dealers| > 0
      ensures store == s && pilotId == pilot
      ensures selectedDealer == s.cat.dealers[0].id
      ensures purchasingShip == None && customName == "" && junkyardRoll == None
    {
      store, pilotId := s, pilot;
      selectedDealer := s.cat.dealers[0].id;
      purchasingShip, customName, junkyardRoll := None, "", None;
    }

    /** The ships listed for the selected dealer: the stock of the first dealer with that id,
        in catalog order; nothing when no dealer has the id. */
    function Listing(): (r: seq<Ship>)
      reads this
      ensures FindDealer(store.cat.dealers, selectedDealer).None? ==> r == []
      ensures forall s :: s in r <==>
                s in store.cat.ships && FindDealer(store.cat.dealers, selectedDealer).Some?
                && s.id in FindDealer(store.cat.dealers, selectedDealer).value.shipIds
    {
      DealerShips(store.cat.ships, FindDealer(store.cat.dealers, selectedDealer))
    }

    /** The junkyard is the dealer with id "junkyard". It switches the screen from the listing
        to the salvage roll: only the junkyard offers the roll, and only other dealers offer
        their listing's purchase buttons. */
    predicate IsJunkyard()
      reads this
      ensures IsJunkyard() ==> selectedDealer == "junkyard"
      ensures selectedDealer == "junkyard" ==> IsJunkyard()
    {
      selectedDealer == "junkyard"
    }

    method SelectDealer(dealerId: string)
      modifies this
      ensures selectedDealer == dealerId
      ensures purchasingShip == old(purchasingShip) && customName == old(customName) && junkyardRoll == old(junkyardRoll)
    {
      selectedDealer := dealerId;
    }

    /** rollForSalvage: the d8 picks the ship through the table, the d6 is kept for the
        upgrades, and the modal opens on the ship. */
    method RollForSalvage(shipRoll: int, upgradesRoll: int)
      requires IsJunkyard()
      requires 1 <= shipRoll <= 8 && 1 <= upgradesRoll <= 6
      modifies this
      ensures junkyardRoll == Some(SalvageRoll(SalvageShipId(shipRoll), upgradesRoll))
      ensures purchasingShip == Some(SalvageShipId(shipRoll))
      ensures selectedDealer == old(selectedDealer) && customName == old(customName)
    {
      var shipId: string;
      if shipRoll <= 2 {
        shipId := "salvage1";
      } else if shipRoll <= 4 {
        shipId := "salvage2";
      } else if shipRoll <= 7 {
        shipId := "salvage3";
      } else {
        shipId := "salvage4";
      }
      junkyardRoll := Some(SalvageRoll(shipId, upgradesRoll));
      purchasingShip := Some(shipId);
    }

    /** A listing's purchase button opens the modal on that ship. */
    method ChooseShip(shipId: string)
      requires !IsJunkyard()
      modifies this
      ensures purchasingShip == Some(shipId)
      ensures selectedDealer == old(selectedDealer) && customName == old(customName) && junkyardRoll == old(junkyardRoll)
    {
      purchasingShip := Some(shipId);
    }

    method SetCustomName(name: string)
      modifies this
      ensures customName == name
      ensures selectedDealer == old(selectedDealer) && purchasingShip == old(purchasingShip) && junkyardRoll == old(junkyardRoll)
    {
      customName := name;
    }

    /** Cancel (or pass on salvage) closes the modal; the typed name is kept. */
    method Cancel()
      modifies this
      ensures purchasingShip == None && junkyardRoll == None
      ensures selectedDealer == old(selectedDealer) && customName == old(customName)
    {
      purchasingShip, junkyardRoll := None, None;
    }

    /** handlePurchase: buys the catalog ship under the typed name or its catalog name; on
        success the modal closes and the name and salvage roll are cleared, otherwise
        nothing changes. `freshId` stands for the clock-derived ship instance id. */
    method HandlePurchase(shipId: string, freshId: string) returns (bought: bool)
      requires store.Valid()
      requires forall i :: 0 <= i < |store.state.pilots| && store.state.pilots[i].id == pilotId ==>
                 forall j :: 0 <= j < |store.state.pilots[i].ships| ==> store.state.pilots[i].ships[j].id != freshId
      modifies this, store
      ensures store.Valid()
      ensures FindShip(store.cat.ships, shipId).None? ==> !bought
      ensures FindShip(store.cat.ships, shipId).Some? ==>
                var r := PurchaseShip(store.cat, old(store.state), pilotId, shipId,
                                      ShipName(old(customName), FindShip(store.cat.ships, shipId).value.name), freshId);
                bought == r.ok && store.state == r.state
      ensures bought ==> purchasingShip == None && customName == "" && junkyardRoll == None
      ensures !bought ==> store.state == old(store.state) && purchasingShip == old(purchasingShip)
                          && customName == old(customName) && junkyardRoll == old(junkyardRoll)
      ensures selectedDealer == old(selectedDealer)
    {
      var ship := FindShip(store.cat.ships, shipId);
      if ship.None? {
        return false;
      }
      var name := if customName == "" then ship.value.name else customName;
      bought := store.PurchaseShip(pilotId, shipId, name, freshId);
      if bought {
        purchasingShip, customName, junkyardRoll := None, "", None;
      }
    }
  }
}
