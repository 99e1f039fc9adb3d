# Pilot campaign tracker — a verified model

This project models the rules of a campaign tracker for a starfighter miniatures
game. Each pilot has a career, a level, experience points (xp), credits, at most
two owned ships and a list of unlocked abilities. Each owned ship carries
installed upgrades, and each upgrade occupies numbered equipment slots. The
model covers:

- the game store: create, delete and select pilots; grant xp and credits; spend
  credits; level up; unlock an ability; buy and sell a ship; resolve a ship's
  slots; install and remove an upgrade; compute the threat level;
- the decision logic of the five screens built on the store: the upgrade
  manager, the ability manager, the threat breakdown, the hangar (sell offers)
  and the ship dealers (purchase and the junkyard's salvage roll).

The reference tables (ships, upgrades, abilities, dealers, career level tables,
generic level table) are a `Catalog` value passed to every operation.

Module layout:

- `Types`: the records of `lib/types.ts`.
- `Lookup`: the `find`-by-id searches.
- `Engine`: the store's operations as pure transitions of `GameState`. Each
  guarded operation returns `Step(ok, state)`, and a rejected one leaves the
  state exactly as it was.
- `Invariants`: the roster well-formedness invariant, with one lemma per
  operation that preserves it. The invariant is: pilot ids are distinct, each
  pilot's ship ids are distinct, no slot is claimed by two upgrade records, and
  no ability is unlocked twice.
- `Effects`: what each guarded operation does to the pilot it touches.
- `Store`: the store as a class with a mutable `state` field. Its
  `getAvailableSlots`, `installUpgrade` and `calculateThreatLevel` are loops
  proved against the `Engine` functions.
- `UpgradeManager`, `AbilityManager`, `ThreatBreakdown`, `PilotHangar` and
  `ShipDealers`: the screens. Each screen's local state is a class, and its
  handlers are methods that call the store.

JavaScript truthiness is written out wherever it decides a branch:

- a missing ship id is `undefined` or the empty string;
- `customName || ship.name` falls back on the empty string;
- an empty `selectedUpgrade` or `selectedShipForSale` counts as none.

## Model

| member | source | states |
|---|---|---|
| Types.ParseCareer | lib/types.ts:83-91 | a string parses to a career only if it spells that career's name |
| Types.CareerNameRoundTrip | lib/types.ts:83-91 | every career's name parses back to that career |
| Types.ParseCareerOnlyNames | lib/types.ts:83-91 | a string fails to parse exactly when it is none of the eight career names |
| Types.SlotTypeNamesDistinct | lib/types.ts:2-16 | the fourteen slot tags are spelled differently |
| Lookup.FindPilot | lib/game-context.tsx:103 | the result, when present, is a roster pilot with that id; absent exactly when no pilot has the id |
| Lookup.FindPilotShip | lib/game-context.tsx:171 | found owned ship carries the id; absent exactly when no owned ship has it |
| Lookup.FindShip | lib/game-context.tsx:149 | found catalog ship carries the id; absent exactly when none does |
| Lookup.FindUpgrade | lib/game-context.tsx:222 | found catalog upgrade carries the id; absent exactly when none does |
| Lookup.FindAbility | lib/game-context.tsx:130 | found catalog ability carries the id; absent exactly when none does |
| Lookup.FindDealer | components/ship-dealers.tsx:28 | found dealer carries the id; absent exactly when none does |
| Lookup.FindLevel | lib/game-context.tsx:118 | found row has that level number; absent exactly when no row does |
| Lookup.CareerLevels | lib/game-context.tsx:117 | a string that parses to a career gets that career's table from the catalog; one that names no career gets the empty level table |
| Lookup.ProgressionOf | lib/game-context.tsx:117 | the level table is the levels of a table entry for that career, empty when the career has no entry (the first entry: see `ProgressionOfIsFirst`) |
| Lookup.FindPilotUnique | lib/game-context.tsx:103 | with distinct pilot ids, looking up a pilot's id finds that pilot |
| Lookup.FindPilotShipUnique | lib/game-context.tsx:171 | with distinct ship ids, looking up a ship's id finds that ship |
| Lookup.FindPilotIsFirst | lib/game-context.tsx:103 | the pilot found is the one at the first position carrying the id |
| Lookup.FindPilotShipIsFirst | lib/game-context.tsx:171 | the owned ship found is the one at the first position carrying the id |
| Lookup.FindShipIsFirst | lib/game-context.tsx:149 | the catalog ship found is the one at the first position carrying the id |
| Lookup.FindUpgradeIsFirst | lib/game-context.tsx:222 | the catalog upgrade found is the one at the first position carrying the id |
| Lookup.FindAbilityIsFirst | lib/game-context.tsx:130 | the catalog ability found is the one at the first position carrying the id |
| Lookup.FindDealerIsFirst | components/ship-dealers.tsx:28 | the dealer found is the one at the first position carrying the id |
| Lookup.FindLevelIsFirst | lib/game-context.tsx:118 | the row found is the one at the first position with that level number |
| Lookup.ProgressionOfIsFirst | lib/game-context.tsx:117 | the level table is the levels of the first table entry for that career |
| Engine.WithoutUpgrade | lib/game-context.tsx:260 | keeps exactly the records of other upgrades |
| Engine.WithoutUpgradeAppend | lib/game-context.tsx:260 | filtering a concatenation filters each part in turn, so record order is kept |
| Engine.WithoutUpgradeSingle | lib/game-context.tsx:260 | a single record is kept exactly when it is of another upgrade; with the append law this fixes the filtered list |
| Engine.WithoutShip | lib/game-context.tsx:182 | keeps exactly the ships with another instance id |
| Engine.WithoutShipAppend | lib/game-context.tsx:182 | filtering a concatenation filters each part in turn, so ship order is kept |
| Engine.WithoutShipSingle | lib/game-context.tsx:182 | a single ship is kept exactly when its instance id differs; with the append law this fixes the filtered list |
| Engine.EditShips | lib/game-context.tsx:242-244 | the edit keeps the number of ships and every ship's id |
| Engine.UpdatePilots | lib/game-context.tsx:91 | the edit keeps the number of pilots and every pilot's id |
| Engine.UpdatePilotsIsUpdated | lib/game-context.tsx:91 | editing every pilot with the id is an update in the sense of `Updated`: matching pilots edited, the rest and the selection unchanged |
| Engine.CreatePilot | lib/game-context.tsx:50-66 | appends one pilot (the fresh id, level 1, 0 xp, 2000 credits, no ships, no abilities) after the untouched roster and selects it |
| Engine.NewPilot | lib/game-context.tsx:50-66 | the created pilot carries the given id, name and career, level 1, no xp, 2000 credits, no ships and no abilities |
| Engine.WithoutPilot | lib/game-context.tsx:70 | keeps exactly the pilots with another id |
| Engine.WithoutPilotAppend | lib/game-context.tsx:70 | filtering a concatenation filters each part in turn, so roster order is kept |
| Engine.WithoutPilotSingle | lib/game-context.tsx:70 | a single pilot is kept exactly when its id differs; with the append law this fixes the remaining roster |
| Engine.WithoutPilotHead | lib/game-context.tsx:70-76 | the first remaining pilot is the first one in the roster whose id differs |
| Engine.WithoutPilotFirstKept | lib/game-context.tsx:70-76 | the same, for every position that is the first with another id |
| Engine.DeletePilot | lib/game-context.tsx:68-82 | removes every pilot with the id; another selection stays; a deleted selection moves to the first remaining pilot, which is the first roster pilot with another id, or to none |
| Engine.SelectPilot | lib/game-context.tsx:84-86 | the roster is unchanged and the selection is whatever id was given, unchecked |
| Engine.AddXP | lib/game-context.tsx:88-93 | the pilots with the id gain the amount of xp; nothing else changes |
| Engine.AddCredits | lib/game-context.tsx:95-100 | the pilots with the id gain the amount of credits; nothing else changes |
| Engine.SpendCredits | lib/game-context.tsx:102-111 | succeeds exactly when the pilot exists and has at least the amount; on failure the state is unchanged; on success the credits drop by the amount |
| Engine.LevelUpPilot | lib/game-context.tsx:113-126 | succeeds exactly when the pilot exists, the career table has a next-level row and the xp reaches that row's requirement; on success the level rises; on failure the state is unchanged |
| Engine.UnlockAbility | lib/game-context.tsx:128-145 | succeeds exactly when pilot and ability exist, the xp covers the cost and the ability is not yet unlocked; the ability-slot count is not consulted |
| Engine.PurchaseShip | lib/game-context.tsx:147-167 | succeeds exactly when pilot and catalog ship exist, the credits cover the cost and fewer than two ships are owned; on success the cost is paid and the new ship appended |
| Engine.ShipName | lib/game-context.tsx:156 | the purchase's name fallback: the typed name when non-empty, else the catalog name; empty only when both are |
| Engine.SellShip | lib/game-context.tsx:169-188 | succeeds exactly when the pilot owns a ship with that instance id; the offer is credited and every ship with the id removed |
| Engine.Layout | lib/game-context.tsx:198-206 | keeps one slot per base slot and per bonus type; the content is stated by `ShipSlots` |
| Engine.MarkFilled | lib/game-context.tsx:209-215 | keeps the number of slots; which slots are filled is stated by `ShipSlots` |
| Engine.ShipSlots | lib/game-context.tsx:190-218 | slot i has index i; base slots keep their type; bonus slots take the bonus types in order; a slot is filled exactly when its base slot is filled or an upgrade record claims it |
| Engine.AvailableSlots | lib/game-context.tsx:190-218 | empty without the pilot, the owned ship or its catalog ship; otherwise exactly `ShipSlots` of the catalog ship, with positional indices |
| Engine.FindSlot | lib/game-context.tsx:231 | the found slot has that index; absent exactly when no slot has it |
| Engine.FindSlotPositional | lib/game-context.tsx:231 | on positional slots, finding an index is indexing, and indices out of range are not found |
| Engine.InstallUpgrade | lib/game-context.tsx:220-250 | succeeds exactly when pilot and upgrade exist, the credits cover the cost, the index count equals the slots required and every index names an existing unoccupied slot of the upgrade's type; on success cost is paid and the record appended to every ship with the id; on failure nothing changes |
| Engine.RemoveUpgrade | lib/game-context.tsx:252-266 | every record of that upgrade is dropped from the ship, with no refund; nothing else changes |
| Engine.ThreatFloor | lib/game-context.tsx:301 | the result is the total divided by 25 rounded down |
| Engine.LevelThreat | lib/game-context.tsx:281-283 | the threat of the first career-table row at the pilot's level when there is one, 0 when no row has that level |
| Engine.AbilitiesThreat | lib/game-context.tsx:286-289 | non-negative when every catalog ability's threat is |
| Engine.UpgradesThreat | lib/game-context.tsx:296-299 | non-negative when every catalog upgrade's threat is |
| Engine.TotalThreat | lib/game-context.tsx:278-299 | never below the level threat when ability, ship and upgrade threats are non-negative; `ThreatLevel` and `BreakdownAgreesWithThreatLevel` use it |
| Engine.ThreatLevel | lib/game-context.tsx:268-302 | 0 without the pilot, a ship id or the owned ship; otherwise the floor of the level, ability, ship and upgrade threat over 25 |
| Invariants.FindAfterEdit | lib/game-context.tsx:91 | after the edit, other ids look up the same pilot and the edited id looks up the edited first match |
| Invariants.ViewAfterUpdate | lib/game-context.tsx:91 | the same, for any state related by `Updated` |
| Invariants.WithoutShipKeepsDistinct | lib/game-context.tsx:182 | removing ships keeps ship ids distinct |
| Invariants.WithoutUpgradeKeepsExclusive | lib/game-context.tsx:260 | removing records keeps slots claimed at most once |
| Invariants.WithoutAbsentUpgrade | lib/game-context.tsx:260 | removing an upgrade that is not installed leaves the records as they were |
| Invariants.AppendKeepsExclusive | lib/game-context.tsx:243 | appending a record disjoint from all others keeps slots claimed at most once |
| Invariants.UpdateKeepsWellFormed | lib/game-context.tsx:91 | an update whose edit keeps each pilot well formed keeps the roster well formed |
| Invariants.UpdateKeepsSelectionValid | lib/game-context.tsx:91 | an update keeps the selection pointing at an existing pilot |
| Invariants.MatchIsFound | lib/game-context.tsx:103 | with distinct ids, the pilot at a position carrying the id is the one found |
| Invariants.ShipMatchIsFound | lib/game-context.tsx:171 | with distinct ids, the ship at a position carrying the id is the one found |
| Invariants.CreatePilotKeepsWellFormed | lib/game-context.tsx:50-66 | with a fresh id, creation keeps the roster well formed, selects an existing pilot and that pilot is the new one |
| Invariants.WithoutPilotKeepsDistinct | lib/game-context.tsx:70 | removing pilots keeps pilot ids distinct |
| Invariants.DeletePilotKeepsInvariants | lib/game-context.tsx:68-82 | deletion keeps the roster well formed and the selection valid |
| Invariants.SelectPilotValidity | lib/game-context.tsx:84-86 | the selection is valid exactly when none or an existing pilot is selected |
| Invariants.AddXPKeepsWellFormed | lib/game-context.tsx:88-93 | granting xp keeps the roster well formed |
| Invariants.AddCreditsKeepsWellFormed | lib/game-context.tsx:95-100 | granting credits keeps the roster well formed |
| Invariants.SpendCreditsKeepsWellFormed | lib/game-context.tsx:102-111 | spending keeps the roster well formed |
| Invariants.LevelUpKeepsWellFormed | lib/game-context.tsx:113-126 | levelling up keeps the roster well formed |
| Invariants.LearnKeepsPilotWellFormed | lib/game-context.tsx:136-143 | learning an ability not yet unlocked keeps abilities unique |
| Invariants.UnlockAbilityKeepsWellFormed | lib/game-context.tsx:128-145 | unlocking keeps the roster well formed |
| Invariants.PurchaseShipKeepsWellFormed | lib/game-context.tsx:147-167 | with an instance id not used by the pilot, buying keeps the roster well formed |
| Invariants.SellShipKeepsWellFormed | lib/game-context.tsx:169-188 | selling keeps the roster well formed |
| Invariants.AcceptedSlotsAreUnclaimed | lib/game-context.tsx:226-233 | indices the install check accepts are claimed by no record already on the ship |
| Invariants.FitKeepsPilotWellFormed | lib/game-context.tsx:236-248 | fitting a record disjoint from the ship's records keeps the pilot well formed |
| Invariants.InstallUpgradeKeepsWellFormed | lib/game-context.tsx:220-250 | installing keeps the roster well formed: accepted slots never double-book |
| Invariants.RemoveUpgradeKeepsWellFormed | lib/game-context.tsx:252-266 | removing keeps the roster well formed |
| Invariants.LevelUpRaisesLevelByOne | lib/game-context.tsx:113-126 | a successful level-up raises the pilot's level by exactly one and changes nothing else of the pilot |
| Invariants.UnlockAbilityEffect | lib/game-context.tsx:128-145 | a successful unlock takes the cost from the xp (never below 0), appends the ability and raises the ability threat by its threat value |
| Effects.FindShipAfterEdit | lib/game-context.tsx:242-244 | after editing ships with an id, looking up that id finds the edited first match |
| Effects.SpendCreditsEffect | lib/game-context.tsx:102-111 | a successful spend leaves the pilot with the credits reduced by the amount, and never negative |
| Effects.PurchaseShipEffect | lib/game-context.tsx:147-167 | a successful purchase pays the cost (credits stay non-negative), keeps the owned ships and appends one with the catalog id, no upgrades and the custom name or the catalog name, at most two ships in all |
| Effects.PurchaseShipAtLimitFails | lib/game-context.tsx:151 | a pilot with two ships is refused and the state is unchanged |
| Effects.SellShipEffect | lib/game-context.tsx:169-188 | a successful sale credits the offer, shortens the ship list and leaves it equal to `WithoutShip` of the old list: the other ships in their order |
| Effects.WithoutShipShorter | lib/game-context.tsx:182 | removing a present ship shortens the list |
| Effects.InstallUpgradeEffect | lib/game-context.tsx:220-250 | a successful install pays the upgrade's cost, appends one record with as many indices as slots required, and raises the ship's upgrade threat by the upgrade's threat value |
| Effects.RemoveUpgradeEffect | lib/game-context.tsx:252-266 | the pilot's ship loses exactly the records of that upgrade |
| Effects.RemoveAbsentUpgradeIsNoOp | lib/game-context.tsx:252-266 | removing an upgrade that is not installed leaves the state unchanged |
| Store.ClaimedExtend | lib/game-context.tsx:209-215 | a slot is claimed by the first a+1 records exactly when the first a or record a claim it |
| Store.GameStore.constructor | lib/game-context.tsx:27-30 | the store starts with no pilots and no selection |
| Store.GameStore.CreatePilot | lib/game-context.tsx:50-66 | the state becomes `Engine.CreatePilot`, well formed with a valid selection |
| Store.GameStore.DeletePilot | lib/game-context.tsx:68-82 | the state becomes `Engine.DeletePilot`; a valid selection stays valid |
| Store.GameStore.SelectPilot | lib/game-context.tsx:84-86 | the state becomes `Engine.SelectPilot` |
| Store.GameStore.AddXP | lib/game-context.tsx:88-93 | the state becomes `Engine.AddXP`, still well formed |
| Store.GameStore.AddCredits | lib/game-context.tsx:95-100 | the state becomes `Engine.AddCredits`, still well formed |
| Store.GameStore.SpendCredits | lib/game-context.tsx:102-111 | result and state are `Engine.SpendCredits`'s |
| Store.GameStore.LevelUpPilot | lib/game-context.tsx:113-126 | result and state are `Engine.LevelUpPilot`'s |
| Store.GameStore.UnlockAbility | lib/game-context.tsx:128-145 | result and state are `Engine.UnlockAbility`'s |
| Store.GameStore.PurchaseShip | lib/game-context.tsx:147-167 | result and state are `Engine.PurchaseShip`'s |
| Store.GameStore.SellShip | lib/game-context.tsx:169-188 | result and state are `Engine.SellShip`'s |
| Store.GameStore.GetAvailableSlots | lib/game-context.tsx:190-218 | the loops that push bonus slots and mark claimed indices compute `Engine.AvailableSlots` |
| Store.GameStore.InstallUpgrade | lib/game-context.tsx:220-250 | the validating loop over the requested indices gives `Engine.InstallUpgrade`'s result and state |
| Store.GameStore.RemoveUpgrade | lib/game-context.tsx:252-266 | the state becomes `Engine.RemoveUpgrade`, still well formed |
| Store.GameStore.CalculateThreatLevel | lib/game-context.tsx:268-302 | the accumulating loops compute `Engine.ThreatLevel` |
| UpgradeManager.SelectedUpgradeData | components/ship-upgrade-manager.tsx:81 | no data for no selection or the empty id; otherwise the catalog upgrade with that id |
| UpgradeManager.Deselect | components/ship-upgrade-manager.tsx:49 | keeps exactly the other indices, and is shorter when the index was selected |
| UpgradeManager.SlotClick | components/ship-upgrade-manager.tsx:35-55 | a click on a missing or filled slot, with no upgrade, or of the wrong type changes nothing; otherwise a selected index is removed by `Deselect`, keeping the others in order, and an unselected one is appended only while fewer than the required slots are chosen |
| UpgradeManager.DeselectAppend | components/ship-upgrade-manager.tsx:49 | deselecting from a concatenation deselects from each part, so the remaining indices keep their order |
| UpgradeManager.DeselectSingle | components/ship-upgrade-manager.tsx:49 | a single index is kept exactly when it is not the clicked one |
| UpgradeManager.DeselectKeepsNoDup | components/ship-upgrade-manager.tsx:49 | deselecting keeps the indices distinct |
| UpgradeManager.SlotClickKeepsFit | components/ship-upgrade-manager.tsx:35-55 | clicks keep the selection distinct, within the required count and on free slots of the upgrade's type |
| UpgradeManager.CanClickIffSelectionChanges | components/ship-upgrade-manager.tsx:176-180 | `canClick` holds of a slot exactly when clicking it changes the selection |
| UpgradeManager.CanClick | components/ship-upgrade-manager.tsx:176-180 | `canClick` needs a chosen upgrade, and choosing a new slot under it never exceeds the upgrade's slot count; `CanClickIffSelectionChanges` pins it down |
| UpgradeManager.SlotButtonEnabled | components/ship-upgrade-manager.tsx:186 | a slot button is disabled only for an unfilled slot where `canClick` fails; a filled slot keeps an enabled button |
| UpgradeManager.SlotButtonEffect | components/ship-upgrade-manager.tsx:35-55 | an enabled button on a filled slot leaves the selection unchanged; on an unfilled slot the button is enabled exactly when clicking changes the selection |
| UpgradeManager.InstallEnabled | components/ship-upgrade-manager.tsx:232-235 | an enabled install button means a pilot and a known upgrade, and paying leaves the credits non-negative; `InstallEnabledMatchesEngine` ties it to the store |
| UpgradeManager.InstallEnabledMatchesEngine | components/ship-upgrade-manager.tsx:232-235 | with an upgrade chosen, the store accepts the install exactly when the button's count and credit checks pass and the chosen slots are free and of the right type |
| UpgradeManager.FewerRecordsFillFewerSlots | lib/game-context.tsx:209-215 | dropping records never fills a slot, nor changes slot count or types |
| UpgradeManager.RemoveKeepsSlotFree | components/ship-upgrade-manager.tsx:77-79 | a slot free before a removal is free after it |
| UpgradeManager.RemoveKeepsFit | components/ship-upgrade-manager.tsx:77-79 | a fitting slot selection still fits after a removal |
| UpgradeManager.CompatibleUpgrades | components/ship-upgrade-manager.tsx:263 | lists exactly the catalog upgrades whose type occurs among the ship's slots |
| UpgradeManager.CompatibleUpgradesAppend | components/ship-upgrade-manager.tsx:263 | listing a concatenation lists each part in turn, so catalog order is kept |
| UpgradeManager.CompatibleUpgradesSingle | components/ship-upgrade-manager.tsx:263 | a single upgrade is listed exactly when some slot has its type |
| UpgradeManager.SlotsOfType | components/ship-upgrade-manager.tsx:84-91 | keeps exactly the slots of the type |
| UpgradeManager.SlotsOfTypeAppend | components/ship-upgrade-manager.tsx:84-91 | grouping a concatenation groups each part in turn, so order is kept |
| UpgradeManager.NoSlotOfType | components/ship-upgrade-manager.tsx:84-91 | a type with no slot has an empty group |
| UpgradeManager.SlotsByType | components/ship-upgrade-manager.tsx:84-91 | the reduce has a group exactly for each type that occurs, holding that type's slots in order |
| UpgradeManager.UpgradeScreen.constructor | components/ship-upgrade-manager.tsx:19-20 | the screen starts with no upgrade and no slots chosen |
| UpgradeManager.UpgradeScreen.ClickSlot | components/ship-upgrade-manager.tsx:35-55 | the selection becomes `SlotClick` of the current slots; the upgrade choice is unchanged |
| UpgradeManager.UpgradeScreen.ClickUpgradeCard | components/ship-upgrade-manager.tsx:274-281 | clicking the chosen card deselects it, another card selects it; the slot choice is cleared either way |
| UpgradeManager.UpgradeScreen.HandleInstall | components/ship-upgrade-manager.tsx:57-75 | installs exactly when slots are chosen, the upgrade is known and the store accepts; on success both choices clear; otherwise the store is unchanged |
| UpgradeManager.UpgradeScreen.HandleRemove | components/ship-upgrade-manager.tsx:77-79 | the store's state becomes `Engine.RemoveUpgrade`'s |
| AbilityManager.MaxAbilitySlots | components/ability-manager.tsx:18-19 | the generic level table's slot count for the level, 0 without a row |
| AbilityManager.AvailableAbilitySlots | components/ability-manager.tsx:20-21 | the slots left plus the unlocked count equal the level's slot count |
| AbilityManager.Eligible | components/ability-manager.tsx:28-39 | an eligible ability lists a career spelled as the pilot's career string; `EligibleMeansNamed` gives the converse |
| AbilityManager.InCategory | components/ability-manager.tsx:28-39 | every list holds only abilities open to the pilot's career; `CategoriesPartition` states how the lists split |
| AbilityManager.UnlockEnabled | components/ability-manager.tsx:125-126 | the unlock button is enabled exactly when the xp covers the cost and fewer abilities are unlocked than the level's slots |
| AbilityManager.SlotsFullWarning | components/ability-manager.tsx:73 | the warning implies every slot of the level is used; `SlotsFullWarningMeaning` gives the exact condition |
| AbilityManager.EligibleMeansNamed | components/ability-manager.tsx:28-39 | an ability is open to a career string exactly when one of its careers is spelled that way |
| AbilityManager.AbilitiesIn | components/ability-manager.tsx:28-39 | each list holds exactly the catalog abilities of its category |
| AbilityManager.AbilitiesInAppend | components/ability-manager.tsx:28-39 | listing a concatenation lists each part in turn, so catalog order is kept |
| AbilityManager.AbilitiesInSingle | components/ability-manager.tsx:28-39 | a single ability is listed exactly when it is in the category |
| AbilityManager.CategoriesPartition | components/ability-manager.tsx:28-39 | listed abilities are open to the career; no ability is both available and locked, or unlocked and available; every open ability is listed by level |
| AbilityManager.LockedIgnoresUnlocks | components/ability-manager.tsx:37-39 | the locked list does not depend on what is unlocked |
| AbilityManager.SlotsFullWarningMeaning | components/ability-manager.tsx:73 | the warning shows exactly when every slot is used and some ability is available |
| AbilityManager.UnlockButtonAccepted | components/ability-manager.tsx:125-126 | an enabled unlock on an available ability is accepted by the store and uses one slot |
| AbilityManager.AbilityFoundById | components/ability-manager.tsx:23-26 | with distinct ids, an ability's id finds that ability |
| AbilityManager.EngineIgnoresSlotCap | lib/game-context.tsx:128-145 | with no slot left the store still accepts an unlock, leaving the pilot over the cap |
| ThreatBreakdown.PilotThreat | components/threat-breakdown.tsx:24-26 | the threat of the pilot's level row in its career table, 0 without a row: the store's level threat |
| ThreatBreakdown.AbilitiesThreatFront | lib/game-context.tsx:286-289 | the summed ability threat splits off its first element |
| ThreatBreakdown.UpgradesThreatFront | lib/game-context.tsx:296-299 | the summed upgrade threat splits off its first record |
| ThreatBreakdown.FoldAbilityThreatIsSum | components/threat-breakdown.tsx:28-31 | the screen's left fold equals the store's ability threat sum |
| ThreatBreakdown.FoldUpgradeThreatIsSum | components/threat-breakdown.tsx:42-45 | the screen's left fold equals the store's upgrade threat sum |
| ThreatBreakdown.AbilitiesThreatOf | components/threat-breakdown.tsx:28-31 | the shown ability threat is the store's sum |
| ThreatBreakdown.ShipThreatBreakdown | components/threat-breakdown.tsx:34-50 | zeros without a ship; otherwise ship and upgrade threat, and a total equal to the store's total threat |
| ThreatBreakdown.ShipAt | components/threat-breakdown.tsx:17-18 | the ship at a position exists exactly when the position is in range |
| ThreatBreakdown.PanelThreatLevel | components/threat-breakdown.tsx:20-21 | a panel beyond the owned ships shows 0; otherwise the store's threat level for that ship |
| ThreatBreakdown.PanelsShareThePilotPart | components/threat-breakdown.tsx:47 | both panels share the level and ability part of their totals |
| ThreatBreakdown.BreakdownAgreesWithThreatLevel | components/threat-breakdown.tsx:17-21 | for a well-formed roster and a present ship with a non-empty instance id, the panel's level is its total over 25 rounded down; an absent panel shows 0 with a zero total. The store returns 0 for an empty id (lib/game-context.tsx:273), whatever the total |
| PilotHangar.CeilDiv | components/pilot-hangar.tsx:50-58 | the least integer at least n / d |
| PilotHangar.UpgradesCost | components/pilot-hangar.tsx:63-67 | the summed upgrade cost is non-negative when every catalog cost is |
| PilotHangar.IsSalvage | components/pilot-hangar.tsx:39 | `startsWith("salvage")`: the id is at least seven characters and begins with "salvage" |
| PilotHangar.OfferFraction | components/pilot-hangar.tsx:48-58 | a roll of 1-2 offers a third, 3-5 a half, 6 three quarters; the denominator is positive |
| PilotHangar.BaseOffer | components/pilot-hangar.tsx:48-61 | the least multiple of 1000 at least the roll's fraction of the cost |
| PilotHangar.SellOffer | components/pilot-hangar.tsx:34-72 | 0 without the owned ship or its catalog entry; a salvage ship fetches 2000 on a 6 and 1000 otherwise; any other ship fetches the base offer for its cost plus half its upgrades' cost, rounded down |
| PilotHangar.SalvageOffer | components/pilot-hangar.tsx:39-45 | a salvage ship fetches 2000 on a 6 and 1000 otherwise, whatever is fitted |
| PilotHangar.BaseOfferMonotone | components/pilot-hangar.tsx:48-61 | a better roll never offers less for a non-negative cost |
| PilotHangar.SellOfferMonotone | components/pilot-hangar.tsx:48-71 | a non-salvage offer never falls as the roll rises |
| PilotHangar.GenerateSellOffer | components/pilot-hangar.tsx:34-72 | the branching and the upgrade-cost loop compute `SellOffer` |
| PilotHangar.FilledSlots | components/pilot-hangar.tsx:123 | keeps exactly the filled slots |
| PilotHangar.FilledSlotsAppend | components/pilot-hangar.tsx:123 | filtering a concatenation filters each part in turn, so order and count are kept |
| PilotHangar.FilledSlotsSingle | components/pilot-hangar.tsx:123 | a single slot is kept exactly when it is filled |
| PilotHangar.CardThreat | components/pilot-hangar.tsx:126-130 | a card's threat is the ship's threat plus its upgrades' summed threat |
| PilotHangar.CardThreatIsShipPart | components/pilot-hangar.tsx:126-130 | the card's threat is the breakdown's ship part, and with the pilot's part makes the store's total |
| PilotHangar.SellDialog.constructor | components/pilot-hangar.tsx:30-32 | the dialog starts closed with no ship and a zero offer |
| PilotHangar.SellDialog.SellClick | components/pilot-hangar.tsx:74-79 | opens on the ship with the offer of `SellOffer` for the roll |
| PilotHangar.SellDialog.AcceptOffer | components/pilot-hangar.tsx:81-88 | with a ship chosen, the store sells it for exactly the shown offer and the dialog resets; otherwise nothing changes |
| PilotHangar.SellDialog.RejectOffer | components/pilot-hangar.tsx:90-94 | closes and resets the dialog |
| ShipDealers.SalvageShipId | components/ship-dealers.tsx:33-46 | the d8 table: 1-2, 3-4, 5-7 and 8 name salvage ships one to four, all prefixed "salvage" |
| ShipDealers.SalvageRollSellsAsSalvage | components/ship-dealers.tsx:33-46 | a ship bought from a salvage roll sells under the salvage rule |
| ShipDealers.CanPurchaseMatchesEngine | components/ship-dealers.tsx:142-143 | the screen's ship limit is the store's, and the purchase button is enabled exactly when the store would accept |
| ShipDealers.HasReachedShipLimit | components/ship-dealers.tsx:30 | the limit is reached exactly at the store's two-ship limit |
| ShipDealers.CanPurchase | components/ship-dealers.tsx:142-143 | an enabled purchase leaves the credits non-negative and the pilot within the ship limit; `CanPurchaseMatchesEngine` ties it to the store |
| ShipDealers.DealerShips | components/ship-dealers.tsx:28-29 | lists exactly the catalog ships the dealer stocks; none without a dealer |
| ShipDealers.DealerShipsAppend | components/ship-dealers.tsx:29 | the listing keeps catalog order |
| ShipDealers.DealerShipsSingle | components/ship-dealers.tsx:29 | a single ship is listed exactly when the dealer exists and stocks it |
| ShipDealers.PurchaseNameIsKept | components/ship-dealers.tsx:59 | the screen's name fallback and the store's give the same name; a typed name is kept |
| ShipDealers.DealerScreen.constructor | components/ship-dealers.tsx:20-26 | opens on the first dealer with nothing being bought |
| ShipDealers.DealerScreen.Listing | components/ship-dealers.tsx:28-29 | the ships shown are the catalog ships stocked by the first dealer with the selected id; none when no dealer has it |
| ShipDealers.DealerScreen.IsJunkyard | components/ship-dealers.tsx:31 | the screen is in salvage mode exactly when the dealer with id "junkyard" is selected; the salvage roll requires it and choosing a listed ship requires its absence (:115-138) |
| ShipDealers.DealerScreen.SelectDealer | components/ship-dealers.tsx:74 | switches dealer, nothing else |
| ShipDealers.DealerScreen.RollForSalvage | components/ship-dealers.tsx:33-53 | offered only in junkyard mode; keeps the d8's ship and the d6 and opens the purchase on that ship |
| ShipDealers.DealerScreen.ChooseShip | components/ship-dealers.tsx:181 | offered only outside junkyard mode; opens the purchase on the ship |
| ShipDealers.DealerScreen.SetCustomName | components/ship-dealers.tsx:261 | records the typed name |
| ShipDealers.DealerScreen.Cancel | components/ship-dealers.tsx:217-219 | closes the purchase and drops the salvage roll; the typed name stays |
| ShipDealers.DealerScreen.HandlePurchase | components/ship-dealers.tsx:55-64 | an unknown ship buys nothing; otherwise the store's purchase under the typed or catalog name decides; on success the purchase, name and roll reset; otherwise nothing changes |

## Left out

- Persistence: loading and saving the state as JSON in browser storage
  (lib/game-context.tsx:33-48) is not modelled. The store starts empty.
- React plumbing is not modelled: the context provider and `useGame`, the
  rendering, the icons and the percentage bars.
- `components/pilot-dashboard.tsx`, `components/pilot-creator.tsx` and
  `app/page.tsx` are not part of this model. They are presentational and call
  the store operations modelled here.
- The game-data tables are not part of this model. They are an abstract
  `Catalog` parameter.
  - A career string that names no career gets the empty level table. What
    the tracker's `getCareerProgression` in `lib/game-data` returns for such a
    string is not part of this model.
- Clock-derived ids (`Date.now()`) are a `freshId` parameter of pilot creation
  and ship purchase. The store methods require it to be unused by the pilot.
- Dice (`Math.random()`) are roll parameters restricted to the die's range.
- Numbers are unbounded integers. Fractional xp, credits or costs are not
  modelled.
  - The sell offer's `Math.ceil(cost * fraction / 1000) * 1000` is computed
    exactly with integer ceiling division. Floating-point rounding is left out.
- The junkyard's d6 upgrades roll is kept and shown but applies nothing.
  The screen does the same.
- The order of keys in the slot groups of `slotsByType` is not modelled (the
  map has no order). The order inside each group is modelled.
- Screens read the store's current pilot rather than a pilot prop captured at
  render time. Stale renders are not modelled, and operations run one after
  another.
- Store.GameStore.PurchaseShip, Store.GameStore.CreatePilot: the store keeps
  the roster well formed only under ids the caller keeps distinct. The model
  relies on the fresh-id parameter for this.
- Duplicate pilot ids are not excluded by the store. Checks read the first match
  while updates apply to every match. The engine functions model that. The
  preservation lemmas assume distinct ids.
- The ability manager's confirm path (`handleUnlock`) relies on the store,
  which does not check the ability-slot cap. `AbilityManager.EngineIgnoresSlotCap`
  states this.
- The dealer's confirm button (components/ship-dealers.tsx:293) checks only the
  credits, not the ship limit. The store still refuses a third ship
  (`Effects.PurchaseShipAtLimitFails`).
- Lookup.FindPilot: the contract states membership, key and absence; that the result is the first match is stated by `Lookup.FindPilotIsFirst`, which keeps the proofs that read every lookup small.
- Lookup.FindPilotShip: the contract states membership, key and absence; that the result is the first match is stated by `Lookup.FindPilotShipIsFirst`, which keeps the proofs that read every lookup small.
- Lookup.FindShip: the contract states membership, key and absence; that the result is the first match is stated by `Lookup.FindShipIsFirst`, which keeps the proofs that read every lookup small.
- Lookup.FindUpgrade: the contract states membership, key and absence; that the result is the first match is stated by `Lookup.FindUpgradeIsFirst`, which keeps the proofs that read every lookup small.
- Lookup.FindAbility: the contract states membership, key and absence; that the result is the first match is stated by `Lookup.FindAbilityIsFirst`, which keeps the proofs that read every lookup small.
- Lookup.FindDealer: the contract states membership, key and absence; that the result is the first match is stated by `Lookup.FindDealerIsFirst`, which keeps the proofs that read every lookup small.
- Lookup.FindLevel: the contract states membership, key and absence; that the result is the first match is stated by `Lookup.FindLevelIsFirst`, which keeps the proofs that read every lookup small.
- Lookup.ProgressionOf: that the first table for the career is used is stated by `Lookup.ProgressionOfIsFirst` rather than by the contract.
