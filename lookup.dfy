// Lookups by identifier: each returns the FIRST entry of a list whose key
// matches, or None, as `Array.prototype.find` does.

module Lookup {
  import opened Types

  function FindPilot(ps: seq<Pilot>, id: string): (r: Option<Pilot>)
    ensures r.Some? ==> r.value in ps && r.value.id == id
    ensures r.None? <==> forall i :: 0 <= i < |ps| ==> ps[i].id != id
  {
    if ps == [] then None
    else if ps[0].id == id then Some(ps[0])
    else FindPilot(ps[1..], id)
  }

  function FindPilotShip(ships: seq<PilotShip>, id: string): (r: Option<PilotShip>)
    ensures r.Some? ==> r.value in ships && r.value.id == id
    ensures r.None? <==> forall i :: 0 <= i < |ships| ==> ships[i].id != id
  {
    if ships == [] then None
    else if ships[0].id == id then Some(ships[0])
    else FindPilotShip(ships[1..], id)
  }

  function FindShip(ships: seq<Ship>, id: string): (r: Option<Ship>)
    ensures r.Some? ==> r.value in ships && r.value.id == id
    ensures r.None? <==> forall i :: 0 <= i < |ships| ==> ships[i].id != id
  {
    if ships == [] then None
    else if ships[0].id == id then Some(ships[0])
    else FindShip(ships[1..], id)
  }

  function FindUpgrade(upgrades: seq<Upgrade>, id: string): (r: Option<Upgrade>)
    ensures r.Some? ==> r.value in upgrades && r.value.id == id
    ensures r.None? <==> forall i :: 0 <= i < |upgrades| ==> upgrades[i].id != id
  {
    if upgrades == [] then None
    else if upgrades[0].id == id then Some(upgrades[0])
    else FindUpgrade(upgrades[1..], id)
  }

  function FindAbility(abilities: seq<Ability>, id: string): (r: Option<Ability>)
    ensures r.Some? ==> r.value in abilities && r.value.id == id
    ensures r.None? <==> forall i :: 0 <= i < |abilities| ==> abilities[i].id != id
  {
    if abilities == [] then None
    else if abilities[0].id == id then Some(abilities[0])
    else FindAbility(abilities[1..], id)
  }

  function FindDealer(dealers: seq<ShipDealer>, id: string): (r: Option<ShipDealer>)
    ensures r.Some? ==> r.value in dealers && r.value.id == id
    ensures r.None? <==> forall i :: 0 <= i < |dealers| ==> dealers[i].id != id
  {
    if dealers == [] then None
    else if dealers[0].id == id then Some(dealers[0])
    else FindDealer(dealers[1..], id)
  }

  /** The row of a level table for the given level number. */
  function FindLevel(levels: seq<LevelProgression>, level: int): (r: Option<LevelProgression>)
    ensures r.Some? ==> r.value in levels && r.value.level == level
    ensures r.None? <==> forall i :: 0 <= i < |levels| ==> levels[i].level != level
  {
    if levels == [] then None
    else if levels[0].level == level then Some(levels[0])
    else FindLevel(levels[1..], level)
  }

  /** The level table of the career a pilot's career string names; a string that names
      no career, or a career without a table, has the empty table. */
  function CareerLevels(cat: Catalog, career: string): (r: seq<LevelProgression>)
    ensures ParseCareer(career).None? ==> r == []
    ensures ParseCareer(career).Some? ==> r == ProgressionOf(cat.careerProgressions, ParseCareer(career).value)
  {
    match ParseCareer(career)
    case None => []
    case Some(c) => ProgressionOf(cat.careerProgressions, c)
  }

  /** The levels of the first table for career `c` (the source's `find` on the career
      tables), or none when no table is for `c`. */
  function ProgressionOf(tables: seq<CareerProgression>, c: CareerType): (r: seq<LevelProgression>)
    ensures (forall i :: 0 <= i < |tables| ==> tables[i].career != c) ==> r == []
  {
    if tables == [] then []
    else if tables[0].career == c then tables[0].levels
    else ProgressionOf(tables[1..], c)
  }

  /** With pairwise distinct pilot ids, the only pilot carrying an id is the one found. */
  lemma FindPilotUnique(ps: seq<Pilot>, i: int)
    requires forall a, b :: 0 <= a < b < |ps| ==> ps[a].id != ps[b].id
    requires 0 <= i < |ps|
    ensures FindPilot(ps, ps[i].id) == Some(ps[i])
  {
    if i > 0 {
      FindPilotUnique(ps[1..], i - 1);
    }
  }

  /** With pairwise distinct ship ids, the only ship carrying an id is the one found. */
  lemma FindPilotShipUnique(ships: seq<PilotShip>, i: int)
    requires forall a, b :: 0 <= a < b < |ships| ==> ships[a].id != ships[b].id
    requires 0 <= i < |ships|
    ensures FindPilotShip(ships, ships[i].id) == Some(ships[i])
  {
    if i > 0 {
      FindPilotShipUnique(ships[1..], i - 1);
    }
  }

  // ---------------------------------------------------------------------------
  // First matches: each lookup returns the entry at the first position whose key
  // matches, whatever entries with the same key follow it.

  lemma {:induction false} FindPilotIsFirst(ps: seq<Pilot>, id: string, i: int)
    requires 0 <= i < |ps| && ps[i].id == id
    requires forall j :: 0 <= j < i ==> ps[j].id != id
    ensures FindPilot(ps, id) == Some(ps[i])
  {
    if i > 0 {
      FindPilotIsFirst(ps[1..], id, i - 1);
    }
  }

  lemma {:induction false} FindPilotShipIsFirst(ships: seq<PilotShip>, id: string, i: int)
    requires 0 <= i < |ships| && ships[i].id == id
    requires forall j :: 0 <= j < i ==> ships[j].id != id
    ensures FindPilotShip(ships, id) == Some(ships[i])
  {
    if i > 0 {
      FindPilotShipIsFirst(ships[1..], id, i - 1);
    }
  }

  lemma {:induction false} FindShipIsFirst(ships: seq<Ship>, id: string, i: int)
    requires 0 <= i < |ships| && ships[i].id == id
    requires forall j :: 0 <= j < i ==> ships[j].id != id
    ensures FindShip(ships, id) == Some(ships[i])
  {
    if i > 0 {
      FindShipIsFirst(ships[1..], id, i - 1);
    }
  }

  lemma {:induction false} FindUpgradeIsFirst(upgrades: seq<Upgrade>, id: string, i: int)
    requires 0 <= i < |upgrades| && upgrades[i].id == id
    requires forall j :: 0 <= j < i ==> upgrades[j].id != id
    ensures FindUpgrade(upgrades, id) == Some(upgrades[i])
  {
    if i > 0 {
      FindUpgradeIsFirst(upgrades[1..], id, i - 1);
    }
  }

  lemma {:induction false} FindAbilityIsFirst(abilities: seq<Ability>, id: string, i: int)
    requires 0 <= i < |abilities| && abilities[i].id == id
    requires forall j :: 0 <= j < i ==> abilities[j].id != id
    ensures FindAbility(abilities, id) == Some(abilities[i])
  {
    if i > 0 {
      FindAbilityIsFirst(abilities[1..], id, i - 1);
    }
  }

  lemma {:induction false} FindDealerIsFirst(dealers: seq<ShipDealer>, id: string, i: int)
    requires 0 <= i < |dealers| && dealers[i].id == id
    requires forall j :: 0 <= j < i ==> dealers[j].id != id
    ensures FindDealer(dealers, id) == Some(dealers[i])
  {
    if i > 0 {
      FindDealerIsFirst(dealers[1..], id, i - 1);
    }
  }

  lemma {:induction false} FindLevelIsFirst(levels: seq<LevelProgression>, level: int, i: int)
    requires 0 <= i < |levels| && levels[i].level == level
    requires forall j :: 0 <= j < i ==> levels[j].level != level
    ensures FindLevel(levels, level) == Some(levels[i])
  {
    if i > 0 {
      FindLevelIsFirst(levels[1..], level, i - 1);
    }
  }

  /** The level table is that of the first career table for the career. */
  lemma {:induction false} ProgressionOfIsFirst(tables: seq<CareerProgression>, c: CareerType, i: int)
    requires 0 <= i < |tables| && tables[i].career == c
    requires forall j :: 0 <= j < i ==> tables[j].career != c
    ensures ProgressionOf(tables, c) == tables[i].levels
  {
    if i > 0 {
      ProgressionOfIsFirst(tables[1..], c, i - 1);
    }
  }
}
