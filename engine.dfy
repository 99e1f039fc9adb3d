// The progression engine of lib/game-context.tsx as pure state transitions:
// every guarded operation either fails and leaves the GameState as it was, or
// applies one precise edit to the pilots carrying the given id. The slot
// resolver and the threat calculator are read-side derivations of a state.

module Engine {
  import opened Types
  import opened Lookup

  /** Credits a new pilot starts with. */
  const StartingCredits: int := 2000
  /** A pilot may own at most this many ships. */
  const ShipLimit: int := 2
  /** The total threat is divided by this to give the threat level. */
  const ThreatDivisor: int := 25

  /** The outcome of a guarded operation: whether it succeeded, and the state after it. */
  datatype Step = Step(ok: bool, state: GameState)

  // ---------------------------------------------------------------------------
  // Edits applied to the matching pilots (and, inside them, the matching ships)

  datatype ShipEdit =
    | Fit(installed: InstalledUpgrade)   // append an upgrade record
    | Strip(upgradeId: string)           // drop every record of one upgrade

  datatype PilotEdit =
    | GainXp(xpDelta: int)
    | GainCredits(creditDelta: int)
    | RaiseLevel
    | Learn(abilityId: string, xpCost: int)
    | AddShip(ship: PilotShip, price: int)
    | DropShip(dropId: string, offer: int)
    | EditShip(editId: string, edit: ShipEdit, charge: int)

  /** The records of `ups` that are not of upgrade `upgradeId`, in order. */
  function WithoutUpgrade(ups: seq<InstalledUpgrade>, upgradeId: string): (r: seq<InstalledUpgrade>)
    ensures forall u :: u in r <==> u in ups && u.upgradeId != upgradeId
    ensures |r| <= |ups|
  {
    if ups == [] then []
    else if ups[0].upgradeId == upgradeId then WithoutUpgrade(ups[1..], upgradeId)
    else [ups[0]] + WithoutUpgrade(ups[1..], upgradeId)
  }

  /** The filter keeps order and multiplicity: filtering a concatenation filters each part in turn. */
  lemma {:induction false} WithoutUpgradeAppend(a: seq<InstalledUpgrade>, b: seq<InstalledUpgrade>, upgradeId: string)
    ensures WithoutUpgrade(a + b, upgradeId) == WithoutUpgrade(a, upgradeId) + WithoutUpgrade(b, upgradeId)
  {
    if a == [] {
      assert a + b == b;
    } else {
      assert (a + b)[1..] == a[1..] + b;
      WithoutUpgradeAppend(a[1..], b, upgradeId);
    }
  }

  /** A single record is kept whole or dropped; with `WithoutUpgradeAppend` this fixes the result of any list. */
  lemma WithoutUpgradeSingle(x: InstalledUpgrade, upgradeId: string)
    ensures WithoutUpgrade([x], upgradeId) == if x.upgradeId != upgradeId then [x] else []
  {
    assert [x][1..] == [];
  }

  /** The ships of `ships` whose instance id is not `shipId`, in order. */
  function WithoutShip(ships: seq<PilotShip>, shipId: string): (r: seq<PilotShip>)
    ensures forall s :: s in r <==> s in ships && s.id != shipId
    ensures |r| <= |ships|
  {
    if ships == [] then []
    else if ships[0].id == shipId then WithoutShip(ships[1..], shipId)
    else [ships[0]] + WithoutShip(ships[1..], shipId)
  }

  /** The filter keeps order and multiplicity: filtering a concatenation filters each part in turn. */
  lemma {:induction false} WithoutShipAppend(a: seq<PilotShip>, b: seq<PilotShip>, shipId: string)
    ensures WithoutShip(a + b, shipId) == WithoutShip(a, shipId) + WithoutShip(b, shipId)
  {
    if a == [] {
      assert a + b == b;
    } else {
      assert (a + b)[1..] == a[1..] + b;
      WithoutShipAppend(a[1..], b, shipId);
    }
  }

  /** A single ship is kept whole or dropped; with `WithoutShipAppend` this fixes the result of any list. */
  lemma WithoutShipSingle(x: PilotShip, shipId: string)
    ensures WithoutShip([x], shipId) == if x.id != shipId then [x] else []
  {
    assert [x][1..] == [];
  }

  function ApplyShipEdit(s: PilotShip, e: ShipEdit): PilotShip
  {
    match e
    case Fit(u) => s.(upgrades := s.upgrades + [u])
    case Strip(upgradeId) => s.(upgrades := WithoutUpgrade(s.upgrades, upgradeId))
  }

  /** Applies `e` to every ship whose instance id is `shipId` (the source's `ships.map`). */
  function EditShips(ships: seq<PilotShip>, shipId: string, e: ShipEdit): (r: seq<PilotShip>)
    ensures |r| == |ships|
    ensures forall i :: 0 <= i < |ships| ==> r[i].id == ships[i].id
  {
    seq(|ships|, i requires 0 <= i < |ships| =>
      if ships[i].id == shipId then ApplyShipEdit(ships[i], e) else ships[i])
  }

  function ApplyEdit(p: Pilot, e: PilotEdit): Pilot
  {
    match e
    case GainXp(d) => p.(xp := p.xp + d)
    case GainCredits(d) => p.(credits := p.credits + d)
    case RaiseLevel => p.(level := p.level + 1)
    case Learn(abilityId, cost) =>
      p.(xp := p.xp - cost, unlockedAbilities := p.unlockedAbilities + [abilityId])
    case AddShip(s, price) => p.(credits := p.credits - price, ships := p.ships + [s])
    case DropShip(shipId, offer) => p.(credits := p.credits + offer, ships := WithoutShip(p.ships, shipId))
    case EditShip(shipId, se, charge) => p.(credits := p.credits - charge, ships := EditShips(p.ships, shipId, se))
  }

  /** Applies `e` to every pilot whose id is `id` (the source's `pilots.map`). */
  function UpdatePilots(ps: seq<Pilot>, id: string, e: PilotEdit): (r: seq<Pilot>)
    ensures |r| == |ps|
    ensures forall i :: 0 <= i < |ps| ==> r[i].id == ps[i].id
  {
    seq(|ps|, i requires 0 <= i < |ps| => if ps[i].id == id then ApplyEdit(ps[i], e) else ps[i])
  }

  /** `after` is `before` with exactly the pilots carrying `id` edited by `e`:
      the roster keeps its length, order and ids, the selection is kept, and every
      pilot with another id is untouched. */
  ghost predicate Updated(before: GameState, after: GameState, id: string, e: PilotEdit)
  {
    && after.selectedPilotId == before.selectedPilotId
    && |after.pilots| == |before.pilots|
    && forall i :: 0 <= i < |before.pilots| ==>
         after.pilots[i] == (if before.pilots[i].id == id then ApplyEdit(before.pilots[i], e) else before.pilots[i])
  }

  lemma UpdatePilotsIsUpdated(st: GameState, id: string, e: PilotEdit)
    ensures Updated(st, st.(pilots := UpdatePilots(st.pilots, id, e)), id, e)
  {
  }

  // ---------------------------------------------------------------------------
  // Roster and selection

  /** A pilot as created: level 1, no xp, the starting credits, nothing owned or unlocked. */
  function NewPilot(id: string, name: string, career: string): (p: Pilot)
    ensures p.id == id && p.name == name && p.career == career
    ensures p.level == 1 && p.xp == 0 && p.credits == StartingCredits
    ensures p.ships == [] && p.unlockedAbilities == []
  {
    Pilot(id, name, career, 1, 0, StartingCredits, [], [])
  }

  /** Appends a fresh pilot (level 1, no xp, 2000 credits, nothing owned) and selects it.
      `freshId` stands for the clock-derived id the source generates. */
  function CreatePilot(st: GameState, freshId: string, name: string, career: string): (r: GameState)
    ensures |r.pilots| == |st.pilots| + 1 && r.pilots[..|st.pilots|] == st.pilots
    ensures var p := r.pilots[|st.pilots|];
      && p.id == freshId && p.name == name && p.career == career
      && p.level == 1 && p.xp == 0 && p.credits == 2000 && p.ships == [] && p.unlockedAbilities == []
    ensures r.selectedPilotId == Some(freshId)
  {
    GameState(st.pilots + [NewPilot(freshId, name, career)], Some(freshId))
  }

  /** The pilots whose id is not `id`, in order. */
  function WithoutPilot(ps: seq<Pilot>, id: string): (r: seq<Pilot>)
    ensures forall p :: p in r <==> p in ps && p.id != id
    ensures |r| <= |ps|
  {
    if ps == [] then []
    else if ps[0].id == id then WithoutPilot(ps[1..], id)
    else [ps[0]] + WithoutPilot(ps[1..], id)
  }

  /** The filter keeps order and multiplicity: filtering a concatenation filters each part in turn. */
  lemma {:induction false} WithoutPilotAppend(a: seq<Pilot>, b: seq<Pilot>, id: string)
    ensures WithoutPilot(a + b, id) == WithoutPilot(a, id) + WithoutPilot(b, id)
  {
    if a == [] {
      assert a + b == b;
    } else {
      assert (a + b)[1..] == a[1..] + b;
      WithoutPilotAppend(a[1..], b, id);
    }
  }

  /** A single pilot is kept whole or dropped; with `WithoutPilotAppend` this fixes the result of any list. */
  lemma WithoutPilotSingle(x: Pilot, id: string)
    ensures WithoutPilot([x], id) == if x.id != id then [x] else []
  {
    assert [x][1..] == [];
  }

  /** The first pilot left is the first one in roster order with another id. */
  lemma {:induction false} WithoutPilotHead(ps: seq<Pilot>, id: string, j: int)
    requires 0 <= j < |ps| && ps[j].id != id
    requires forall k :: 0 <= k < j ==> ps[k].id == id
    ensures WithoutPilot(ps, id) != [] && WithoutPilot(ps, id)[0] == ps[j]
  {
    if j > 0 {
      WithoutPilotHead(ps[1..], id, j - 1);
    }
  }

  lemma WithoutPilotFirstKept(ps: seq<Pilot>, id: string)
    ensures forall j :: 0 <= j < |ps| && ps[j].id != id && (forall k :: 0 <= k < j ==> ps[k].id == id) ==>
              WithoutPilot(ps, id) != [] && WithoutPilot(ps, id)[0] == ps[j]
  {
    forall j | 0 <= j < |ps| && ps[j].id != id && (forall k :: 0 <= k < j ==> ps[k].id == id) {
      WithoutPilotHead(ps, id, j);
    }
  }

  /** Removes every pilot with the id; a selection of that id moves to the first
      remaining pilot, or to none; any other selection stays. */
  function DeletePilot(st: GameState, id: string): (r: GameState)
    ensures forall p :: p in r.pilots <==> p in st.pilots && p.id != id
    ensures forall i :: 0 <= i < |r.pilots| ==> r.pilots[i].id != id
    ensures st.selectedPilotId != Some(id) ==> r.selectedPilotId == st.selectedPilotId
    ensures st.selectedPilotId == Some(id) && r.pilots != [] ==> r.selectedPilotId == Some(r.pilots[0].id)
    ensures st.selectedPilotId == Some(id) && r.pilots == [] ==> r.selectedPilotId == None
    ensures st.selectedPilotId == Some(id) ==>
              forall j :: 0 <= j < |st.pilots| && st.pilots[j].id != id && (forall k :: 0 <= k < j ==> st.pilots[k].id == id) ==>
                r.selectedPilotId == Some(st.pilots[j].id)
  {
    WithoutPilotFirstKept(st.pilots, id);
    var remaining := WithoutPilot(st.pilots, id);
    GameState(
      remaining,
      if st.selectedPilotId == Some(id) then
        (if |remaining| > 0 then Some(remaining[0].id) else None)
      else st.selectedPilotId)
  }

  /** Selects any id, or none; the id is not checked against the roster. */
  function SelectPilot(st: GameState, id: Option<string>): (r: GameState)
    ensures r.pilots == st.pilots && r.selectedPilotId == id
  {
    st.(selectedPilotId := id)
  }

  // ---------------------------------------------------------------------------
  // Unguarded grants

  function AddXP(st: GameState, id: string, amount: int): (r: GameState)
    ensures Updated(st, r, id, GainXp(amount))
  {
    st.(pilots := UpdatePilots(st.pilots, id, GainXp(amount)))
  }

  function AddCredits(st: GameState, id: string, amount: int): (r: GameState)
    ensures Updated(st, r, id, GainCredits(amount))
  {
    st.(pilots := UpdatePilots(st.pilots, id, GainCredits(amount)))
  }

  // ---------------------------------------------------------------------------
  // Guarded operations

  function SpendCredits(st: GameState, id: string, amount: int): (r: Step)
    ensures r.ok <==> FindPilot(st.pilots, id).Some? && FindPilot(st.pilots, id).value.credits >= amount
    ensures !r.ok ==> r.state == st
    ensures r.ok ==> Updated(st, r.state, id, GainCredits(-amount))
  {
    match FindPilot(st.pilots, id)
    case None => Step(false, st)
    case Some(p) =>
      if p.credits < amount then Step(false, st)
      else Step(true, st.(pilots := UpdatePilots(st.pilots, id, GainCredits(-amount))))
  }

  /** The row of the pilot's career table for the level after the current one. */
  function NextLevel(cat: Catalog, p: Pilot): Option<LevelProgression>
  {
    FindLevel(CareerLevels(cat, p.career), p.level + 1)
  }

  function LevelUpPilot(cat: Catalog, st: GameState, id: string): (r: Step)
    ensures r.ok <==> FindPilot(st.pilots, id).Some?
                      && NextLevel(cat, FindPilot(st.pilots, id).value).Some?
                      && FindPilot(st.pilots, id).value.xp >= NextLevel(cat, FindPilot(st.pilots, id).value).value.xpRequired
    ensures !r.ok ==> r.state == st
    ensures r.ok ==> Updated(st, r.state, id, RaiseLevel)
  {
    match FindPilot(st.pilots, id)
    case None => Step(false, st)
    case Some(p) =>
      match NextLevel(cat, p)
      case None => Step(false, st)
      case Some(next) =>
        if p.xp < next.xpRequired then Step(false, st)
        else Step(true, st.(pilots := UpdatePilots(st.pilots, id, RaiseLevel)))
  }

  /** No ability-slot count is checked here. */
  function UnlockAbility(cat: Catalog, st: GameState, id: string, abilityId: string): (r: Step)
    ensures r.ok <==> FindPilot(st.pilots, id).Some? && FindAbility(cat.abilities, abilityId).Some?
                      && FindPilot(st.pilots, id).value.xp >= FindAbility(cat.abilities, abilityId).value.xpCost
                      && abilityId !in FindPilot(st.pilots, id).value.unlockedAbilities
    ensures !r.ok ==> r.state == st
    ensures r.ok ==> Updated(st, r.state, id, Learn(abilityId, FindAbility(cat.abilities, abilityId).value.xpCost))
  {
    match (FindPilot(st.pilots, id), FindAbility(cat.abilities, abilityId))
    case (Some(p), Some(a)) =>
      if p.xp < a.xpCost || abilityId in p.unlockedAbilities then Step(false, st)
      else Step(true, st.(pilots := UpdatePilots(st.pilots, id, Learn(abilityId, a.xpCost))))
    case _ => Step(false, st)
  }

  /** The display name of a bought ship: the custom name, or the catalog name when
      the custom name is empty. */
  function ShipName(customName: string, catalogName: string): (r: string)
    ensures r == customName || r == catalogName
    ensures customName != "" ==> r == customName
    ensures r == "" ==> customName == "" && catalogName == ""
  {
    if customName == "" then catalogName else customName
  }

  /** The ship record a purchase appends. `freshId` stands for the clock-derived id. */
  function BoughtShip(freshId: string, shipId: string, customName: string, ship: Ship): PilotShip
  {
    PilotShip(freshId, shipId, ShipName(customName, ship.name), [])
  }

  function PurchaseShip(cat: Catalog, st: GameState, id: string, shipId: string, customName: string, freshId: string): (r: Step)
    ensures r.ok <==> FindPilot(st.pilots, id).Some? && FindShip(cat.ships, shipId).Some?
                      && FindPilot(st.pilots, id).value.credits >= FindShip(cat.ships, shipId).value.cost
                      && |FindPilot(st.pilots, id).value.ships| < ShipLimit
    ensures !r.ok ==> r.state == st
    ensures r.ok ==> var ship := FindShip(cat.ships, shipId).value;
      Updated(st, r.state, id, AddShip(BoughtShip(freshId, shipId, customName, ship), ship.cost))
  {
    match (FindPilot(st.pilots, id), FindShip(cat.ships, shipId))
    case (Some(p), Some(ship)) =>
      if p.credits < ship.cost || |p.ships| >= ShipLimit then Step(false, st)
      else Step(true, st.(pilots := UpdatePilots(st.pilots, id, AddShip(BoughtShip(freshId, shipId, customName, ship), ship.cost))))
    case _ => Step(false, st)
  }

  /** The offer is decided by the caller; the engine only checks ownership. */
  function SellShip(st: GameState, id: string, shipId: string, offerAmount: int): (r: Step)
    ensures r.ok <==> FindPilot(st.pilots, id).Some? && FindPilotShip(FindPilot(st.pilots, id).value.ships, shipId).Some?
    ensures !r.ok ==> r.state == st
    ensures r.ok ==> Updated(st, r.state, id, DropShip(shipId, offerAmount))
  {
    match FindPilot(st.pilots, id)
    case None => Step(false, st)
    case Some(p) =>
      if FindPilotShip(p.ships, shipId).None? then Step(false, st)
      else Step(true, st.(pilots := UpdatePilots(st.pilots, id, DropShip(shipId, offerAmount))))
  }

  // ---------------------------------------------------------------------------
  // Slot resolver

  /** One resolved slot: its position, its type and whether it is occupied. */
  datatype SlotView = SlotView(index: int, slotType: SlotType, filled: bool)

  /** The bonus slot types the pilot's career table grants at the pilot's current level. */
  function BonusSlots(cat: Catalog, p: Pilot): seq<SlotType>
  {
    match FindLevel(CareerLevels(cat, p.career), p.level)
    case Some(l) => l.bonusUpgradeSlots
    case None => []
  }

  /** The base slots followed by one empty slot per bonus type. */
  function Layout(base: seq<ShipSlot>, bonus: seq<SlotType>): (r: seq<ShipSlot>)
    ensures |r| == |base| + |bonus|
  {
    base + seq(|bonus|, i requires 0 <= i < |bonus| => ShipSlot(bonus[i], false))
  }

  /** Some installed upgrade record lists slot index `i`. */
  predicate Claimed(ups: seq<InstalledUpgrade>, i: int)
  {
    exists u :: u in ups && i in u.slotIndices
  }

  function MarkFilled(layout: seq<ShipSlot>, ups: seq<InstalledUpgrade>): (r: seq<SlotView>)
    ensures |r| == |layout|
  {
    seq(|layout|, i requires 0 <= i < |layout| =>
      SlotView(i, layout[i].slotType, layout[i].filled || Claimed(ups, i)))
  }

  /** The resolved slots of an owned ship `ps` of catalog ship `ship` flown by `p`. */
  function ShipSlots(cat: Catalog, p: Pilot, ps: PilotShip, ship: Ship): (r: seq<SlotView>)
    ensures |r| == |ship.baseSlots| + |BonusSlots(cat, p)|
    ensures forall i :: 0 <= i < |r| ==> r[i].index == i
    ensures forall i :: 0 <= i < |ship.baseSlots| ==> r[i].slotType == ship.baseSlots[i].slotType
    ensures forall i :: |ship.baseSlots| <= i < |r| ==> r[i].slotType == BonusSlots(cat, p)[i - |ship.baseSlots|]
    ensures forall i :: 0 <= i < |r| ==>
              (r[i].filled <==> (i < |ship.baseSlots| && ship.baseSlots[i].filled) || Claimed(ps.upgrades, i))
  {
    MarkFilled(Layout(ship.baseSlots, BonusSlots(cat, p)), ps.upgrades)
  }

  /** getAvailableSlots: empty when the pilot, the owned ship or its catalog entry is missing. */
  function AvailableSlots(cat: Catalog, st: GameState, pilotId: string, shipId: string): (r: seq<SlotView>)
    ensures FindPilot(st.pilots, pilotId).None? ==> r == []
    ensures FindPilot(st.pilots, pilotId).Some? && FindPilotShip(FindPilot(st.pilots, pilotId).value.ships, shipId).None? ==> r == []
    ensures FindPilot(st.pilots, pilotId).Some? && FindPilotShip(FindPilot(st.pilots, pilotId).value.ships, shipId).Some? ==>
              var p := FindPilot(st.pilots, pilotId).value;
              var ps := FindPilotShip(p.ships, shipId).value;
              && (FindShip(cat.ships, ps.shipId).None? ==> r == [])
              && (FindShip(cat.ships, ps.shipId).Some? ==> r == ShipSlots(cat, p, ps, FindShip(cat.ships, ps.shipId).value))
    ensures forall i :: 0 <= i < |r| ==> r[i].index == i
  {
    match FindPilot(st.pilots, pilotId)
    case None => []
    case Some(p) =>
      match FindPilotShip(p.ships, shipId)
      case None => []
      case Some(ps) =>
        match FindShip(cat.ships, ps.shipId)
        case None => []
        case Some(ship) => ShipSlots(cat, p, ps, ship)
  }

  /** The slot whose `index` field is `idx`, if any (the source's `slots.find`). */
  function FindSlot(slots: seq<SlotView>, idx: int): (r: Option<SlotView>)
    ensures r.Some? ==> r.value in slots && r.value.index == idx
    ensures r.None? <==> forall i :: 0 <= i < |slots| ==> slots[i].index != idx
  {
    if slots == [] then None
    else if slots[0].index == idx then Some(slots[0])
    else FindSlot(slots[1..], idx)
  }

  /** On resolved slots, whose index is their position, finding index `idx` is indexing. */
  lemma {:induction false} FindSlotPositional(slots: seq<SlotView>, offset: int, idx: int)
    requires forall i :: 0 <= i < |slots| ==> slots[i].index == offset + i
    ensures FindSlot(slots, idx) == if offset <= idx < offset + |slots| then Some(slots[idx - offset]) else None
  {
    if slots != [] && slots[0].index != idx {
      FindSlotPositional(slots[1..], offset + 1, idx);
    }
  }

  /** Slot `idx` exists, is unoccupied and has type `t`. */
  predicate SlotFree(slots: seq<SlotView>, idx: int, t: SlotType)
  {
    match FindSlot(slots, idx)
    case None => false
    case Some(s) => !s.filled && s.slotType == t
  }

  /** Every requested index names an existing, unoccupied slot of type `t`. */
  predicate SlotsAccept(slots: seq<SlotView>, indices: seq<int>, t: SlotType)
  {
    forall k :: 0 <= k < |indices| ==> SlotFree(slots, indices[k], t)
  }

  /** Repeated indices within one request are not rejected. */
  function InstallUpgrade(cat: Catalog, st: GameState, id: string, shipId: string, upgradeId: string, slotIndices: seq<int>): (r: Step)
    ensures r.ok <==> FindPilot(st.pilots, id).Some? && FindUpgrade(cat.upgrades, upgradeId).Some?
                      && FindPilot(st.pilots, id).value.credits >= FindUpgrade(cat.upgrades, upgradeId).value.cost
                      && |slotIndices| == FindUpgrade(cat.upgrades, upgradeId).value.slotsRequired
                      && SlotsAccept(AvailableSlots(cat, st, id, shipId), slotIndices, FindUpgrade(cat.upgrades, upgradeId).value.slotType)
    ensures !r.ok ==> r.state == st
    ensures r.ok ==> Updated(st, r.state, id,
      EditShip(shipId, Fit(InstalledUpgrade(upgradeId, slotIndices)), FindUpgrade(cat.upgrades, upgradeId).value.cost))
  {
    match (FindPilot(st.pilots, id), FindUpgrade(cat.upgrades, upgradeId))
    case (Some(p), Some(u)) =>
      if p.credits < u.cost then Step(false, st)
      else if |slotIndices| != u.slotsRequired then Step(false, st)
      else if !SlotsAccept(AvailableSlots(cat, st, id, shipId), slotIndices, u.slotType) then Step(false, st)
      else Step(true, st.(pilots := UpdatePilots(st.pilots, id,
             EditShip(shipId, Fit(InstalledUpgrade(upgradeId, slotIndices)), u.cost))))
    case _ => Step(false, st)
  }

  /** Drops every record of the upgrade on that ship; no refund; never fails. */
  function RemoveUpgrade(st: GameState, id: string, shipId: string, upgradeId: string): (r: GameState)
    ensures Updated(st, r, id, EditShip(shipId, Strip(upgradeId), 0))
  {
    st.(pilots := UpdatePilots(st.pilots, id, EditShip(shipId, Strip(upgradeId), 0)))
  }

  // ---------------------------------------------------------------------------
  // Threat calculator

  /** The cumulative threat of the pilot's current level in its career table, 0 without a row. */
  function LevelThreat(cat: Catalog, p: Pilot): (r: int)
    ensures FindLevel(CareerLevels(cat, p.career), p.level).Some? ==>
              r == FindLevel(CareerLevels(cat, p.career), p.level).value.threatValue
    ensures r != 0 ==> exists l :: l in CareerLevels(cat, p.career) && l.level == p.level && l.threatValue == r
    ensures (forall i :: 0 <= i < |CareerLevels(cat, p.career)| ==> CareerLevels(cat, p.career)[i].level != p.level) ==> r == 0
  {
    match FindLevel(CareerLevels(cat, p.career), p.level)
    case Some(l) => l.threatValue
    case None => 0
  }

  function AbilityThreat(abilities: seq<Ability>, abilityId: string): int
  {
    match FindAbility(abilities, abilityId)
    case Some(a) => a.threatValue
    case None => 0
  }

  /** The summed threat of the listed abilities; unknown ids add nothing. */
  function AbilitiesThreat(abilities: seq<Ability>, ids: seq<string>): (r: int)
    ensures (forall a :: a in abilities ==> a.threatValue >= 0) ==> r >= 0
  {
    if ids == [] then 0
    else AbilitiesThreat(abilities, ids[..|ids| - 1]) + AbilityThreat(abilities, ids[|ids| - 1])
  }

  function UpgradeThreat(upgrades: seq<Upgrade>, upgradeId: string): int
  {
    match FindUpgrade(upgrades, upgradeId)
    case Some(u) => u.threatValue
    case None => 0
  }

  /** The summed threat of the installed records; unknown upgrades add nothing. */
  function UpgradesThreat(upgrades: seq<Upgrade>, ups: seq<InstalledUpgrade>): (r: int)
    ensures (forall u :: u in upgrades ==> u.threatValue >= 0) ==> r >= 0
  {
    if ups == [] then 0
    else UpgradesThreat(upgrades, ups[..|ups| - 1]) + UpgradeThreat(upgrades, ups[|ups| - 1].upgradeId)
  }

  function ShipThreat(ships: seq<Ship>, shipId: string): int
  {
    match FindShip(ships, shipId)
    case Some(s) => s.threatValue
    case None => 0
  }

  /** Level threat + ability threat (shared by a pilot's ships) + ship threat + upgrade threat. */
  function TotalThreat(cat: Catalog, p: Pilot, ps: PilotShip): (r: int)
    ensures (&& (forall a :: a in cat.abilities ==> a.threatValue >= 0)
             && (forall s :: s in cat.ships ==> s.threatValue >= 0)
             && (forall u :: u in cat.upgrades ==> u.threatValue >= 0)) ==> r >= LevelThreat(cat, p)
  {
    LevelThreat(cat, p) + AbilitiesThreat(cat.abilities, p.unlockedAbilities)
      + ShipThreat(cat.ships, ps.shipId) + UpgradesThreat(cat.upgrades, ps.upgrades)
  }

  /** `total` divided by 25, rounded down (also for negative totals). */
  function ThreatFloor(total: int): (r: int)
    ensures ThreatDivisor * r <= total < ThreatDivisor * r + ThreatDivisor
  {
    total / ThreatDivisor
  }

  /** A missing ship id, in the source `undefined` or the empty string. */
  predicate NoShipId(shipId: Option<string>)
  {
    shipId.None? || shipId.value == ""
  }

  /** calculateThreatLevel: 0 without the pilot, a ship id or the owned ship; otherwise the
      total threat of that pilot and ship divided by 25 and rounded down. */
  function ThreatLevel(cat: Catalog, st: GameState, pilotId: string, shipId: Option<string>): (r: int)
    ensures FindPilot(st.pilots, pilotId).None? || NoShipId(shipId) ==> r == 0
    ensures (FindPilot(st.pilots, pilotId).Some? && !NoShipId(shipId)
             && FindPilotShip(FindPilot(st.pilots, pilotId).value.ships, shipId.value).None?) ==> r == 0
    ensures (FindPilot(st.pilots, pilotId).Some? && !NoShipId(shipId)
             && FindPilotShip(FindPilot(st.pilots, pilotId).value.ships, shipId.value).Some?) ==>
              var total := TotalThreat(cat, FindPilot(st.pilots, pilotId).value,
                                       FindPilotShip(FindPilot(st.pilots, pilotId).value.ships, shipId.value).value);
              25 * r <= total < 25 * r + 25
  {
    match FindPilot(st.pilots, pilotId)
    case None => 0
    case Some(p) =>
      if NoShipId(shipId) then 0
      else
        match FindPilotShip(p.ships, shipId.value)
        case None => 0
        case Some(ps) => ThreatFloor(TotalThreat(cat, p, ps))
  }
}
