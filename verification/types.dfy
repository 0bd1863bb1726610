/** Record types of the game state and the command union (types.ts).
    Display-only fields (names, flags, colours, emoji, descriptions, message text) are not modelled. */
module Types {

  datatype Option<+T> = None | Some(value: T)

  /** Why the reducer could not produce a new state: the source throws (or divides by zero) here. */
  datatype Fault =
    | MissingEntity          // a referenced country, general or tile does not exist (a TypeError in the source)
    | InsufficientReserves   // CREATE_ARMY asked for more units than the reserve holds
    | UndefinedArithmetic    // a combat loss ratio would divide by zero

  datatype Outcome<+T> = Ok(value: T) | Err(fault: Fault)

  // --- Enumerations ---------------------------------------------------------

  datatype BuildingType = Farm | Factory | OilWell | PowerPlant | Lab | Barracks | Bunker
  datatype UnitCategory = Infantry | Armor | Air | Navy | Missile | Defense
  datatype UnitId = Soldier | Tank | Artillery | Jet | Bomber | Helicopter | Destroyer | Sub | Carrier | Nuke | Sam
  datatype Biome = Plains | Forest | Desert | Mountain | Snow | Ocean | City
  datatype GeneralStatus = Available | Assigned | Injured | Dead
  datatype RelationStatus = War | Hostile | Neutral | Friendly | Alliance
  datatype DiplomaticActionType = ImproveRelations | TradeAgreement | AllianceOffer | DeclareWar | SendAid | DemandTribute
  datatype SpyMissionType = GatherIntel | SabotageIndustry | StealTech | InciteUnrest
  datatype MessageKind = InfoMsg | WarMsg | EconomyMsg | AlertMsg | SpyMsg
  datatype ModalContent = BattleResultModal | EventModal | ArmyManagerModal

  const AllBuildings: seq<BuildingType> := [Farm, Factory, OilWell, PowerPlant, Lab, Barracks, Bunker]
  const AllUnits: seq<UnitId> := [Soldier, Tank, Artillery, Jet, Bomber, Helicopter, Destroyer, Sub, Carrier, Nuke, Sam]

  lemma EveryUnitListed()
    ensures forall u: UnitId :: u in AllUnits
  {
    forall u: UnitId
      ensures u in AllUnits
    {
      match u
      case Soldier => case Tank => case Artillery => case Jet => case Bomber => case Helicopter =>
      case Destroyer => case Sub => case Carrier => case Nuke => case Sam =>
    }
  }

  lemma EveryBuildingListed()
    ensures forall b: BuildingType :: b in AllBuildings
  {
    forall b: BuildingType
      ensures b in AllBuildings
    {
      match b
      case Farm => case Factory => case OilWell => case PowerPlant => case Lab => case Barracks => case Bunker =>
    }
  }

  // --- Per-type tables --------------------------------------------------------

  /** A count for EVERY unit type (`Record<UnitId, number>` as a country's reserve). */
  type UnitTable = m: map<UnitId, int> | forall u: UnitId :: u in m
    witness ZeroUnits()

  /** A count for EVERY building type. */
  type BuildingTable = m: map<BuildingType, int> | forall b: BuildingType :: b in m
    witness ZeroBuildings()

  function ZeroUnits(): (m: map<UnitId, int>)
    ensures forall u: UnitId :: u in m && m[u] == 0
  {
    EveryUnitListed();
    map u: UnitId | u in AllUnits :: 0
  }

  function ZeroBuildings(): (m: map<BuildingType, int>)
    ensures forall b: BuildingType :: b in m && m[b] == 0
  {
    EveryBuildingListed();
    map b: BuildingType | b in AllBuildings :: 0
  }

  // --- Map --------------------------------------------------------------------

  datatype HexCoordinate = HexCoordinate(q: int, r: int, s: int)

  /** Axial coordinates keep q + r + s == 0; s is derived from q and r. */
  type Hex = c: HexCoordinate | c.q + c.r + c.s == 0 witness HexCoordinate(0, 0, 0)

  function HexAt(q: int, r: int): (c: Hex)
    ensures c.q == q && c.r == r
  {
    HexCoordinate(q, r, -q - r)
  }

  /** The per-turn bonus a tile gives its owner (only money, food and oil are ever set). */
  datatype TileBonus = TileBonus(money: int, food: int, oil: int)

  datatype MapTile = MapTile(
    id: string,
    coords: Hex,
    biome: Biome,
    ownerId: Option<string>,
    resourceBonus: TileBonus,
    defenseBonus: int,
    movementCost: int)

  // --- Armies and generals ----------------------------------------------------

  datatype GeneralStats = GeneralStats(strategy: int, bravery: int, logistics: int)

  datatype General = General(id: string, level: int, xp: int, stats: GeneralStats, status: GeneralStatus)

  /** Army units may be a partial map: CREATE_ARMY stores the requested counts as given. */
  datatype Army = Army(
    id: string,
    generalId: string,
    ownerId: string,
    location: string,
    units: map<UnitId, int>,
    movementPoints: int,
    maxMovement: int)

  // --- Diplomacy ----------------------------------------------------------------

  datatype Relation = Relation(
    targetCountryId: string,
    status: RelationStatus,
    opinion: int,
    ceasefireTurns: Option<int>,
    isTradePartner: Option<bool>)

  /** The documented opinion range. */
  predicate OpinionInRange(rel: Relation) {
    -100 <= rel.opinion <= 100
  }

  // --- Countries ------------------------------------------------------------------

  datatype Resources = Resources(money: real, food: real, oil: real, energy: real, population: real, researchPoints: real)

  datatype Country = Country(
    id: string,
    isPlayer: bool,
    resources: Resources,
    buildings: BuildingTable,
    units: UnitTable,                 // reserves, not on the map
    armies: seq<string>,
    generals: seq<string>,
    researchedTechs: seq<string>,
    currentResearch: Option<string>,
    researchProgress: real,
    intelligence: map<string, int>)

  // --- Battle results and messages --------------------------------------------------

  /** One line of the battle narrative; the source renders these as text. */
  datatype BattleLine =
    | BattleAt(tileId: string, biome: Biome)
    | AttackerIs(attackerArmyId: string, attackerCountryId: string)
    | DefenderIs(defenderArmyId: Option<string>)   // None: the garrison
    | Powers(attackFloor: int, defenseFloor: int)
    | Verdict(attackerVictorious: bool)

  /** `winnerId`/`loserId` are None where the source reads the id of the fallback 'Rebels' object. */
  datatype BattleResult = BattleResult(
    winnerId: Option<string>,
    loserId: Option<string>,
    attackerLosses: map<UnitId, int>,
    defenderLosses: map<UnitId, int>,
    location: string,
    details: seq<BattleLine>)

  datatype GameMessage = GameMessage(id: string, turn: int, kind: MessageKind, read: bool)

  // --- Global state --------------------------------------------------------------------

  datatype GameState = GameState(
    turn: int,
    year: int,
    month: int,
    playerCountryId: string,
    countries: map<string, Country>,
    tiles: seq<MapTile>,            // `map`, in the order the generator created the tiles
    armies: map<string, Army>,
    generals: map<string, General>,
    relations: map<string, map<string, Relation>>,
    messages: seq<GameMessage>,
    modalOpen: bool,
    modalContent: Option<ModalContent>,
    selectedTileId: Option<string>,
    selectedArmyId: Option<string>,
    currentBattleResult: Option<BattleResult>,
    selectedCountryId: Option<string>)

  /** The fifteen commands the reducer accepts. */
  datatype GameAction =
    | NextTurn
    | BuildBuilding(countryId: string, buildingId: BuildingType, amount: int)
    | RecruitUnit(countryId: string, unitId: UnitId, amount: int)
    | CreateArmy(countryId: string, generalId: string, units: map<UnitId, int>, location: string)
    | RecruitGeneral(countryId: string)
    | MoveArmy(armyId: string, targetTileId: string)
    | StartResearch(countryId: string, techId: string)
    | SelectCountry(selCountry: Option<string>)
    | SelectTile(tileId: Option<string>)
    | SelectArmy(selArmy: Option<string>)
    | DiplomacyAction(sourceId: string, targetId: string, action: DiplomaticActionType)
    | SendSpy(spySource: string, spyTarget: string, mission: SpyMissionType)
    | CloseModal
    | OpenModal(content: Option<ModalContent>)
    | DismissMessage(messageId: string)

  // --- Small shared helpers -------------------------------------------------------------

  /** JavaScript truthiness of an optional id: null and "" are both falsy. */
  predicate Truthy(o: Option<string>) {
    o.Some? && o.value != ""
  }

  /** `xs.filter(id => id !== x)` */
  function Without(xs: seq<string>, x: string): (ys: seq<string>)
    ensures x !in ys
    ensures forall y :: y in ys <==> y in xs && y != x
    ensures |ys| <= |xs|
    ensures multiset(ys) == multiset(xs)[x := 0]
  {
    if |xs| == 0 then []
    else if xs[0] == x then
      assert xs == [xs[0]] + xs[1..];
      Without(xs[1..], x)
    else
      assert xs == [xs[0]] + xs[1..];
      [xs[0]] + Without(xs[1..], x)
  }

  /** The filter keeps the survivors in their order: filtering a concatenation filters each part. */
  lemma {:induction false} WithoutKeepsOrder(xs: seq<string>, zs: seq<string>, x: string)
    ensures Without(xs + zs, x) == Without(xs, x) + Without(zs, x)
  {
    if |xs| == 0 {
      assert xs + zs == zs;
    } else {
      assert (xs + zs)[0] == xs[0] && (xs + zs)[1..] == xs[1..] + zs;
      WithoutKeepsOrder(xs[1..], zs, x);
      if xs[0] != x {
        assert [xs[0]] + (Without(xs[1..], x) + Without(zs, x)) == ([xs[0]] + Without(xs[1..], x)) + Without(zs, x);
      }
    }
  }

  /** Sum of the counts present in a (possibly partial) unit map. */
  function UnitTotal(m: map<UnitId, int>): int {
    SumUnitsOver(AllUnits, m)
  }

  function SumUnitsOver(us: seq<UnitId>, m: map<UnitId, int>): int {
    if |us| == 0 then 0
    else (if us[0] in m then m[us[0]] else 0) + SumUnitsOver(us[1..], m)
  }
}
