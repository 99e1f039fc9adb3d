// The campaign tracker's data model: ships, upgrades, abilities, careers,
// pilots and the game state they live in.

module Types {

  /** A value that may be absent (a TypeScript `T | null` or `T | undefined`). */
  datatype Option<+T> = None | Some(value: T)

  /** The closed set of equipment slot tags shared by ship slots and upgrades. */
  datatype SlotType =
    | Astromech | Cannon | Configuration | Crew | Gunner | Illicit | Missile
    | Modification | Payload | Sensor | Tech | Title | Torpedo | Turret

  /** The closed set of pilot careers. */
  datatype CareerType =
    | Organizer | Professional | Gambler | Slicer | Gearhead | Demolitions | Cyborg | Miner

  /** An upgrade fitted to an owned ship, with the slot positions it claims. */
  datatype InstalledUpgrade = InstalledUpgrade(upgradeId: string, slotIndices: seq<int>)

  /** An owned instance of a catalog ship. */
  datatype PilotShip = PilotShip(id: string, shipId: string, name: string, upgrades: seq<InstalledUpgrade>)

  /** A player character. The career is stored as a plain string. */
  datatype Pilot = Pilot(
    id: string,
    name: string,
    career: string,
    level: int,
    xp: int,
    credits: int,
    ships: seq<PilotShip>,
    unlockedAbilities: seq<string>)

  datatype ShipSlot = ShipSlot(slotType: SlotType, filled: bool)

  datatype Ship = Ship(
    id: string,
    name: string,
    manufacturer: string,
    baseSlots: seq<ShipSlot>,
    threatValue: int,
    cost: int,
    description: string)

  datatype Upgrade = Upgrade(
    id: string,
    name: string,
    slotType: SlotType,
    slotsRequired: int,
    threatValue: int,
    cost: int,
    description: string)

  datatype Ability = Ability(
    id: string,
    name: string,
    xpCost: int,
    threatValue: int,
    description: string,
    requiredLevel: int,
    careers: seq<CareerType>)

  datatype ShipDealer = ShipDealer(id: string, name: string, description: string, shipIds: seq<string>)

  /** One row of a level table: the cumulative xp needed, the total number of ability
      slots, the bonus upgrade slots granted and the cumulative threat of the level. */
  datatype LevelProgression = LevelProgression(
    level: int,
    xpRequired: int,
    abilitySlots: int,
    bonusUpgradeSlots: seq<SlotType>,
    threatValue: int,
    initiative: Option<int>)

  datatype CareerProgression = CareerProgression(career: CareerType, levels: seq<LevelProgression>)

  /** The whole application state: the roster and the selected pilot, if any. */
  datatype GameState = GameState(pilots: seq<Pilot>, selectedPilotId: Option<string>)

  /** The immutable reference tables the engine and the screens look entries up in.
      `careerProgressions` backs the per-career table lookup; `levelProgression` is the
      separate generic table the ability screen reads. */
  datatype Catalog = Catalog(
    ships: seq<Ship>,
    upgrades: seq<Upgrade>,
    abilities: seq<Ability>,
    dealers: seq<ShipDealer>,
    careerProgressions: seq<CareerProgression>,
    levelProgression: seq<LevelProgression>)

  /** The string a career is spelled as. */
  function CareerName(c: CareerType): string
  {
    match c
    case Organizer => "Organizer"
    case Professional => "Professional"
    case Gambler => "Gambler"
    case Slicer => "Slicer"
    case Gearhead => "Gearhead"
    case Demolitions => "Demolitions"
    case Cyborg => "Cyborg"
    case Miner => "Miner"
  }

  /** The career a string names, if it names one. */
  function ParseCareer(s: string): (r: Option<CareerType>)
    ensures r.Some? ==> CareerName(r.value) == s
  {
    if s == "Organizer" then Some(Organizer)
    else if s == "Professional" then Some(Professional)
    else if s == "Gambler" then Some(Gambler)
    else if s == "Slicer" then Some(Slicer)
    else if s == "Gearhead" then Some(Gearhead)
    else if s == "Demolitions" then Some(Demolitions)
    else if s == "Cyborg" then Some(Cyborg)
    else if s == "Miner" then Some(Miner)
    else None
  }

  /** Every career's name parses back to that career, so the eight names are distinct
      and the career set is closed. */
  lemma CareerNameRoundTrip(c: CareerType)
    ensures ParseCareer(CareerName(c)) == Some(c)
  {
  }

  /** A string parses only if it is one of the eight names. */
  lemma ParseCareerOnlyNames(s: string)
    ensures ParseCareer(s).None? <==> forall c: CareerType :: CareerName(c) != s
  {
    if ParseCareer(s).None? {
      forall c: CareerType ensures CareerName(c) != s {
        CareerNameRoundTrip(c);
      }
    }
  }

  /** The string a slot type is spelled as. */
  function SlotTypeName(t: SlotType): string
  {
    match t
    case Astromech => "astromech"
    case Cannon => "cannon"
    case Configuration => "configuration"
    case Crew => "crew"
    case Gunner => "gunner"
    case Illicit => "illicit"
    case Missile => "missile"
    case Modification => "modification"
    case Payload => "payload"
    case Sensor => "sensor"
    case Tech => "tech"
    case Title => "title"
    case Torpedo => "torpedo"
    case Turret => "turret"
  }

  /** The fourteen slot tags are spelled differently. */
  lemma SlotTypeNamesDistinct(a: SlotType, b: SlotType)
    ensures SlotTypeName(a) == SlotTypeName(b) ==> a == b
  {
  }
}
