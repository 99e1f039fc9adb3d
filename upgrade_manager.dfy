// The upgrade screen of components/ship-upgrade-manager.tsx: a two-field state
// machine (the chosen upgrade and the chosen slot indices) driven by clicks on
// upgrade cards and slots, the gate in front of the store's install, and the
// grouping of the resolved slots by type.

module UpgradeManager {
  import opened Types
  import opened Lookup
  import opened Engine
  import opened Invariants
  import Effects
  import Store

  // ---------------------------------------------------------------------------
  // Selection logic

  /** The catalog entry of the chosen upgrade; none when nothing (or the empty id) is chosen. */
  function SelectedUpgradeData(cat: Catalog, selectedUpgrade: Option<string>): (r: Option<Upgrade>)
    ensures r.Some? ==> selectedUpgrade.Some? && selectedUpgrade.value != ""
                        && FindUpgrade(cat.upgrades, selectedUpgrade.value) == r
    ensures selectedUpgrade.Some? && selectedUpgrade.value != "" ==> r == FindUpgrade(cat.upgrades, selectedUpgrade.value)
  {
    if selectedUpgrade.None? || selectedUpgrade.value == "" then None
    else FindUpgrade(cat.upgrades, selectedUpgrade.value)
  }

  /** The selection with every occurrence of `idx` taken out, in order. */
  function Deselect(selected: seq<int>, idx: int): (r: seq<int>)
    ensures forall x :: x in r <==> x in selected && x != idx
    ensures idx in selected ==> |r| < |selected|
    ensures |r| <= |selected|
  {
    if selected == [] then []
    else if selected[0] == idx then Deselect(selected[1..], idx)
    else [selected[0]] + Deselect(selected[1..], idx)
  }

  /** The remaining indices keep their order: deselecting from a concatenation deselects from each part. */
  lemma {:induction false} DeselectAppend(a: seq<int>, b: seq<int>, idx: int)
    ensures Deselect(a + b, idx) == Deselect(a, idx) + Deselect(b, idx)
  {
    if a == [] {
      assert a + b == b;
    } else {
      assert (a + b)[1..] == a[1..] + b;
      DeselectAppend(a[1..], b, idx);
    }
  }

  /** A single index is kept whole or dropped; with `DeselectAppend` this fixes the result of any list. */
  lemma DeselectSingle(x: int, idx: int)
    ensures Deselect([x], idx) == if x != idx then [x] else []
  {
    assert [x][1..] == [];
  }

  /** A click on slot `idx` reaches the toggle: the slot exists and is empty, and a known
      upgrade of the slot's type is chosen. */
  predicate ClickReachesToggle(cat: Catalog, slots: seq<SlotView>, selectedUpgrade: Option<string>, idx: int)
  {
    && FindSlot(slots, idx).Some?
    && !FindSlot(slots, idx).value.filled
    && SelectedUpgradeData(cat, selectedUpgrade).Some?
    && FindSlot(slots, idx).value.slotType == SelectedUpgradeData(cat, selectedUpgrade).value.slotType
  }

  /** handleSlotClick: the new slot selection after a click on slot `idx`. */
  function SlotClick(cat: Catalog, slots: seq<SlotView>, selectedUpgrade: Option<string>, selected: seq<int>, idx: int): (r: seq<int>)
    ensures !ClickReachesToggle(cat, slots, selectedUpgrade, idx) ==> r == selected
    ensures ClickReachesToggle(cat, slots, selectedUpgrade, idx) && idx in selected ==>
              idx !in r && (forall x :: x in r <==> x in selected && x != idx) && r == Deselect(selected, idx)
    ensures ClickReachesToggle(cat, slots, selectedUpgrade, idx) && idx !in selected ==>
              r == if |selected| < SelectedUpgradeData(cat, selectedUpgrade).value.slotsRequired
                   then selected + [idx] else selected
  {
    match FindSlot(slots, idx)
    case None => selected
    case Some(slot) =>
      if slot.filled then selected
      else
        match SelectedUpgradeData(cat, selectedUpgrade)
        case None => selected
        case Some(u) =>
          if slot.slotType != u.slotType then selected
          else if idx in selected then Deselect(selected, idx)
          else if |selected| < u.slotsRequired then selected + [idx]
          else selected
  }

  lemma {:induction false} DeselectKeepsNoDup(selected: seq<int>, idx: int)
    requires NoDup(selected)
    ensures NoDup(Deselect(selected, idx))
  {
    if selected != [] {
      DeselectKeepsNoDup(selected[1..], idx);
      if selected[0] != idx {
        var rest := Deselect(selected[1..], idx);
        assert selected[0] !in selected[1..];
        assert Deselect(selected, idx) == [selected[0]] + rest;
      }
    }
  }

  /** What the invariant of the screen asks of a slot selection: it is empty, or a known
      upgrade is chosen, the selection holds at most as many indices as it needs, and every
      index names an empty slot of the upgrade's type. */
  predicate SelectionFits(cat: Catalog, slots: seq<SlotView>, selectedUpgrade: Option<string>, selected: seq<int>)
  {
    selected == [] ||
      (&& SelectedUpgradeData(cat, selectedUpgrade).Some?
       && |selected| <= SelectedUpgradeData(cat, selectedUpgrade).value.slotsRequired
       && SlotsAccept(slots, selected, SelectedUpgradeData(cat, selectedUpgrade).value.slotType))
  }

  /** Clicks never duplicate an index, never exceed the upgrade's slot count, and only ever
      add empty slots of the upgrade's type. */
  lemma SlotClickKeepsFit(cat: Catalog, slots: seq<SlotView>, selectedUpgrade: Option<string>, selected: seq<int>, idx: int)
    requires NoDup(selected) && SelectionFits(cat, slots, selectedUpgrade, selected)
    ensures var r := SlotClick(cat, slots, selectedUpgrade, selected, idx);
      NoDup(r) && SelectionFits(cat, slots, selectedUpgrade, r)
  {
    var r := SlotClick(cat, slots, selectedUpgrade, selected, idx);
    if ClickReachesToggle(cat, slots, selectedUpgrade, idx) {
      var u := SelectedUpgradeData(cat, selectedUpgrade).value;
      if idx in selected {
        DeselectKeepsNoDup(selected, idx);
        forall k | 0 <= k < |r| ensures SlotFree(slots, r[k], u.slotType) {
          assert r[k] in selected;
          var j :| 0 <= j < |selected| && selected[j] == r[k];
        }
      } else if |selected| < u.slotsRequired {
        forall k | 0 <= k < |r| ensures SlotFree(slots, r[k], u.slotType) {
          if k < |selected| {
            assert r[k] == selected[k];
          }
        }
      }
    }
  }

  /** canClick: an unfilled slot of the chosen upgrade's type that is already selected or
      still fits. Choosing it never takes the selection past the upgrade's slot count. */
  predicate CanClick(cat: Catalog, selectedUpgrade: Option<string>, selected: seq<int>, slot: SlotView)
    ensures CanClick(cat, selectedUpgrade, selected, slot) ==>
              && SelectedUpgradeData(cat, selectedUpgrade).Some?
              && (slot.index !in selected ==> |selected + [slot.index]| <= SelectedUpgradeData(cat, selectedUpgrade).value.slotsRequired)
  {
    && SelectedUpgradeData(cat, selectedUpgrade).Some?
    && slot.slotType == SelectedUpgradeData(cat, selectedUpgrade).value.slotType
    && !slot.filled
    && (slot.index in selected || |selected| < SelectedUpgradeData(cat, selectedUpgrade).value.slotsRequired)
  }

  /** `canClick` holds of a slot exactly when clicking it changes the selection. */
  lemma CanClickIffSelectionChanges(cat: Catalog, slots: seq<SlotView>, selectedUpgrade: Option<string>, selected: seq<int>, i: int)
    requires forall j :: 0 <= j < |slots| ==> slots[j].index == j
    requires 0 <= i < |slots|
    ensures CanClick(cat, selectedUpgrade, selected, slots[i])
            <==> SlotClick(cat, slots, selectedUpgrade, selected, i) != selected
  {
    FindSlotPositional(slots, 0, i);
    if CanClick(cat, selectedUpgrade, selected, slots[i]) && i in selected {
      assert i !in SlotClick(cat, slots, selectedUpgrade, selected, i);
    }
    if CanClick(cat, selectedUpgrade, selected, slots[i]) && i !in selected {
      assert |SlotClick(cat, slots, selectedUpgrade, selected, i)| == |selected| + 1;
    }
  }

  /** The slot button is enabled when `canClick` holds or the slot is filled: a filled slot
      keeps an enabled button. */
  predicate SlotButtonEnabled(cat: Catalog, selectedUpgrade: Option<string>, selected: seq<int>, slot: SlotView)
    ensures !SlotButtonEnabled(cat, selectedUpgrade, selected, slot) ==> !slot.filled && !CanClick(cat, selectedUpgrade, selected, slot)
  {
    CanClick(cat, selectedUpgrade, selected, slot) || slot.filled
  }

  /** An enabled button on a filled slot does nothing, and on an unfilled slot it changes the
      selection; a disabled button's slot would not change it either. */
  lemma SlotButtonEffect(cat: Catalog, slots: seq<SlotView>, selectedUpgrade: Option<string>, selected: seq<int>, i: int)
    requires forall j :: 0 <= j < |slots| ==> slots[j].index == j
    requires 0 <= i < |slots|
    ensures slots[i].filled ==> SlotButtonEnabled(cat, selectedUpgrade, selected, slots[i])
                                && SlotClick(cat, slots, selectedUpgrade, selected, i) == selected
    ensures !slots[i].filled ==>
              (SlotButtonEnabled(cat, selectedUpgrade, selected, slots[i])
               <==> SlotClick(cat, slots, selectedUpgrade, selected, i) != selected)
  {
    FindSlotPositional(slots, 0, i);
    CanClickIffSelectionChanges(cat, slots, selectedUpgrade, selected, i);
  }

  /** The install button is enabled: a known upgrade is chosen for a pilot on the roster,
      the selection has exactly the upgrade's slot count, and the pilot can pay, so paying
      leaves the credits non-negative. */
  predicate InstallEnabled(cat: Catalog, st: GameState, pilotId: string, selectedUpgrade: Option<string>, selected: seq<int>)
    ensures InstallEnabled(cat, st, pilotId, selectedUpgrade, selected) ==>
              && FindPilot(st.pilots, pilotId).Some? && SelectedUpgradeData(cat, selectedUpgrade).Some?
              && FindPilot(st.pilots, pilotId).value.credits - SelectedUpgradeData(cat, selectedUpgrade).value.cost >= 0
  {
    && SelectedUpgradeData(cat, selectedUpgrade).Some?
    && FindPilot(st.pilots, pilotId).Some?
    && |selected| == SelectedUpgradeData(cat, selectedUpgrade).value.slotsRequired
    && FindPilot(st.pilots, pilotId).value.credits >= SelectedUpgradeData(cat, selectedUpgrade).value.cost
  }

  /** For a chosen upgrade, the engine accepts the install exactly when the button is
      enabled and every selected slot is an empty slot of the upgrade's type. */
  lemma InstallEnabledMatchesEngine(cat: Catalog, st: GameState, pilotId: string, shipId: string, upgradeId: string, selected: seq<int>)
    requires upgradeId != ""
    ensures InstallUpgrade(cat, st, pilotId, shipId, upgradeId, selected).ok
            <==> InstallEnabled(cat, st, pilotId, Some(upgradeId), selected)
                 && SlotsAccept(AvailableSlots(cat, st, pilotId, shipId), selected, FindUpgrade(cat.upgrades, upgradeId).value.slotType)
  {
  }

  /** The same slot layout with a subset of the records marks a subset of the slots. */
  lemma FewerRecordsFillFewerSlots(cat: Catalog, p: Pilot, p': Pilot, ps: PilotShip, ps': PilotShip, ship: Ship, i: int)
    requires BonusSlots(cat, p') == BonusSlots(cat, p)
    requires forall u :: u in ps'.upgrades ==> u in ps.upgrades
    requires 0 <= i < |ShipSlots(cat, p, ps, ship)|
    ensures |ShipSlots(cat, p', ps', ship)| == |ShipSlots(cat, p, ps, ship)|
    ensures ShipSlots(cat, p', ps', ship)[i].slotType == ShipSlots(cat, p, ps, ship)[i].slotType
    ensures ShipSlots(cat, p', ps', ship)[i].filled ==> ShipSlots(cat, p, ps, ship)[i].filled
  {
    if Claimed(ps'.upgrades, i) {
      var u :| u in ps'.upgrades && i in u.slotIndices;
      assert u in ps.upgrades;
    }
  }

  /** Removing an upgrade never fills a slot: a slot that was empty stays empty, with the
      same type. */
  lemma RemoveKeepsSlotFree(cat: Catalog, st: GameState, pilotId: string, shipId: string, upgradeId: string, idx: int, t: SlotType)
    requires SlotFree(AvailableSlots(cat, st, pilotId, shipId), idx, t)
    ensures SlotFree(AvailableSlots(cat, RemoveUpgrade(st, pilotId, shipId, upgradeId), pilotId, shipId), idx, t)
  {
    var st' := RemoveUpgrade(st, pilotId, shipId, upgradeId);
    var slots := AvailableSlots(cat, st, pilotId, shipId);
    var p := FindPilot(st.pilots, pilotId).value;
    var ps := FindPilotShip(p.ships, shipId).value;
    var ship := FindShip(cat.ships, ps.shipId).value;
    Effects.RemoveUpgradeEffect(st, pilotId, shipId, upgradeId);
    var p' := FindPilot(st'.pilots, pilotId).value;
    var ps' := FindPilotShip(p'.ships, shipId).value;
    assert ps' == ps.(upgrades := WithoutUpgrade(ps.upgrades, upgradeId));
    var slots' := AvailableSlots(cat, st', pilotId, shipId);
    assert slots == ShipSlots(cat, p, ps, ship);
    assert slots' == ShipSlots(cat, p', ps', ship);
    FindSlotPositional(slots, 0, idx);
    FindSlotPositional(slots', 0, idx);
    FewerRecordsFillFewerSlots(cat, p, p', ps, ps', ship, idx);
  }

  lemma RemoveKeepsFit(cat: Catalog, st: GameState, pilotId: string, shipId: string, upgradeId: string,
                       selectedUpgrade: Option<string>, selected: seq<int>)
    requires SelectionFits(cat, AvailableSlots(cat, st, pilotId, shipId), selectedUpgrade, selected)
    ensures SelectionFits(cat, AvailableSlots(cat, RemoveUpgrade(st, pilotId, shipId, upgradeId), pilotId, shipId), selectedUpgrade, selected)
  {
    if selected != [] {
      var t := SelectedUpgradeData(cat, selectedUpgrade).value.slotType;
      forall k | 0 <= k < |selected|
        ensures SlotFree(AvailableSlots(cat, RemoveUpgrade(st, pilotId, shipId, upgradeId), pilotId, shipId), selected[k], t)
      {
        RemoveKeepsSlotFree(cat, st, pilotId, shipId, upgradeId, selected[k], t);
      }
    }
  }

  // ---------------------------------------------------------------------------
  // Listing and grouping

  /** The catalog upgrades whose type occurs among the ship's slots, in catalog order. */
  function CompatibleUpgrades(upgrades: seq<Upgrade>, slots: seq<SlotView>): (r: seq<Upgrade>)
    ensures forall u :: u in r <==> u in upgrades && exists s :: s in slots && s.slotType == u.slotType
    ensures |r| <= |upgrades|
  {
    if upgrades == [] then []
    else if exists s :: s in slots && s.slotType == upgrades[0].slotType
    then [upgrades[0]] + CompatibleUpgrades(upgrades[1..], slots)
    else CompatibleUpgrades(upgrades[1..], slots)
  }

  /** The listing keeps catalog order and multiplicity: listing a concatenation lists each part in turn. */
  lemma {:induction false} CompatibleUpgradesAppend(a: seq<Upgrade>, b: seq<Upgrade>, slots: seq<SlotView>)
    ensures CompatibleUpgrades(a + b, slots) == CompatibleUpgrades(a, slots) + CompatibleUpgrades(b, slots)
  {
    if a == [] {
      assert a + b == b;
    } else {
      assert (a + b)[1..] == a[1..] + b;
      CompatibleUpgradesAppend(a[1..], b, slots);
    }
  }

  /** A single upgrade is kept whole or dropped; with `CompatibleUpgradesAppend` this fixes the result of any list. */
  lemma CompatibleUpgradesSingle(x: Upgrade, slots: seq<SlotView>)
    ensures CompatibleUpgrades([x], slots) == if exists s :: s in slots && s.slotType == x.slotType then [x] else []
  {
    assert [x][1..] == [];
  }

  /** The slots of type `t`, in their original order. */
  function SlotsOfType(slots: seq<SlotView>, t: SlotType): (r: seq<SlotView>)
    ensures forall s :: s in r <==> s in slots && s.slotType == t
    ensures |r| <= |slots|
  {
    if slots == [] then []
    else if slots[0].slotType == t then [slots[0]] + SlotsOfType(slots[1..], t)
    else SlotsOfType(slots[1..], t)
  }

  /** Grouping distributes over concatenation, so each group keeps the relative order the
      slots had. */
  lemma {:induction false} SlotsOfTypeAppend(a: seq<SlotView>, b: seq<SlotView>, t: SlotType)
    ensures SlotsOfType(a + b, t) == SlotsOfType(a, t) + SlotsOfType(b, t)
  {
    if a == [] {
      assert a + b == b;
    } else {
      assert (a + b)[1..] == a[1..] + b;
      SlotsOfTypeAppend(a[1..], b, t);
    }
  }

  lemma {:induction false} NoSlotOfType(slots: seq<SlotView>, t: SlotType)
    requires forall i :: 0 <= i < |slots| ==> slots[i].slotType != t
    ensures SlotsOfType(slots, t) == []
  {
    if slots != [] {
      NoSlotOfType(slots[1..], t);
    }
  }

  /** slotsByType: one group per slot type that occurs, each holding that type's slots in
      order, built by one pass that appends each slot to its type's group. */
  method SlotsByType(slots: seq<SlotView>) returns (groups: map<SlotType, seq<SlotView>>)
    ensures forall t :: t in groups <==> exists s :: s in slots && s.slotType == t
    ensures forall t :: t in groups ==> groups[t] == SlotsOfType(slots, t)
  {
    groups := map[];
    for i := 0 to |slots|
      invariant forall t :: t in groups <==> exists s :: s in slots[..i] && s.slotType == t
      invariant forall t :: t in groups ==> groups[t] == SlotsOfType(slots[..i], t)
    {
      var slot := slots[i];
      assert slots[..i + 1] == slots[..i] + [slot];
      ghost var before := groups;
      if slot.slotType !in groups {
        groups := groups[slot.slotType := []];
      }
      groups := groups[slot.slotType := groups[slot.slotType] + [slot]];
      forall t | t in groups ensures groups[t] == SlotsOfType(slots[..i + 1], t) {
        SlotsOfTypeAppend(slots[..i], [slot], t);
        assert [slot][1..] == [];
        if t == slot.slotType && t !in before {
          NoSlotOfType(slots[..i], t);
        } else if t != slot.slotType {
          assert groups[t] == before[t];
        }
      }
    }
    assert slots[..|slots|] == slots;
  }

  // ---------------------------------------------------------------------------
  // The screen

  class UpgradeScreen {
    const store: Store.GameStore
    const pilotId: string
    const shipId: string
    var selectedUpgrade: Option<string>
    var selectedSlots: seq<int>

    /** The store is well formed, and the slot selection has no repeats and fits the
        chosen upgrade on the current slots. */
    ghost predicate Valid()
      reads this, store
    {
      && store.Valid()
      && NoDup(selectedSlots)
      && SelectionFits(store.cat, AvailableSlots(store.cat, store.state, pilotId, shipId), selectedUpgrade, selectedSlots)
    }

    constructor(s: Store.GameStore, pilot: string, ship: string)
      requires s.Valid()
      ensures store == s && pilotId == pilot && shipId == ship
      ensures selectedUpgrade == None && selectedSlots == []
      ensures Valid()
    {
      store, pilotId, shipId := s, pilot, ship;
      selectedUpgrade, selectedSlots := None, [];
    }

    /** handleSlotClick on the slots the store resolves for this ship. */
    method ClickSlot(slotIndex: int)
      requires Valid()
      modifies this
      ensures Valid()
      ensures selectedUpgrade == old(selectedUpgrade)
      ensures selectedSlots == SlotClick(store.cat, AvailableSlots(store.cat, store.state, pilotId, shipId),
                                         selectedUpgrade, old(selectedSlots), slotIndex)
    {
      var slots := store.GetAvailableSlots(pilotId, shipId);
      SlotClickKeepsFit(store.cat, slots, selectedUpgrade, selectedSlots, slotIndex);
      selectedSlots := SlotClick(store.cat, slots, selectedUpgrade, selectedSlots, slotIndex);
    }

    /** A click on an upgrade card deselects it if it was chosen and chooses it otherwise;
        either way the slot selection starts over. */
    method ClickUpgradeCard(upgradeId: string)
      requires Valid()
      modifies this
      ensures Valid()
      ensures selectedUpgrade == (if old(selectedUpgrade) == Some(upgradeId) then None else Some(upgradeId))
      ensures selectedSlots == []
    {
      if selectedUpgrade == Some(upgradeId) {
        selectedUpgrade := None;
      } else {
        selectedUpgrade := Some(upgradeId);
      }
      selectedSlots := [];
    }

    /** handleInstall: calls the store only with a chosen known upgrade, a non-empty
        selection and every selected slot empty and of the upgrade's type; clears both
        selections when the store accepts. */
    method HandleInstall() returns (installed: bool)
      requires Valid()
      modifies this, store
      ensures Valid()
      ensures installed <==> old(selectedSlots) != [] && SelectedUpgradeData(store.cat, old(selectedUpgrade)).Some?
                             && InstallUpgrade(store.cat, old(store.state), pilotId, shipId,
                                               old(selectedUpgrade).value, old(selectedSlots)).ok
      ensures installed ==> store.state == InstallUpgrade(store.cat, old(store.state), pilotId, shipId,
                                                          old(selectedUpgrade).value, old(selectedSlots)).state
      ensures installed ==> selectedUpgrade == None && selectedSlots == []
      ensures !installed ==> store.state == old(store.state)
                             && selectedUpgrade == old(selectedUpgrade) && selectedSlots == old(selectedSlots)
    {
      if selectedUpgrade.None? || selectedUpgrade.value == "" || |selectedSlots| == 0 {
        return false;
      }
      var upgrade := FindUpgrade(store.cat.upgrades, selectedUpgrade.value);
      if upgrade.None? {
        return false;
      }
      var slots := store.GetAvailableSlots(pilotId, shipId);
      if !SlotsAccept(slots, selectedSlots, upgrade.value.slotType) {
        return false;
      }
      installed := store.InstallUpgrade(pilotId, shipId, selectedUpgrade.value, selectedSlots);
      if installed {
        selectedUpgrade, selectedSlots := None, [];
      }
    }

    /** handleRemove: removes the upgrade from this ship; the slot selection stays valid. */
    method HandleRemove(upgradeId: string)
      requires Valid()
      modifies store
      ensures Valid()
      ensures store.state == RemoveUpgrade(old(store.state), pilotId, shipId, upgradeId)
    {
      RemoveKeepsFit(store.cat, store.state, pilotId, shipId, upgradeId, selectedUpgrade, selectedSlots);
      store.RemoveUpgrade(pilotId, shipId, upgradeId);
    }
  }
}
