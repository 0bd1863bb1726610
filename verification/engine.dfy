/** The reducer (gameReducer in gameEngine.ts): one command applied to one state snapshot.
    The source's deep clone is Dafny's value semantics. Random draws and the Date.now()-based ids
    are supplied in a `Draws` record; a TypeError or a thrown Error of the source is an `Err`. */
module Engine {
  import opened Types
  import opened Hex
  import opened Catalogue
  import opened Economy
  import opened Combat

  const GeneralPrice: int := 5000
  const LabResearchBonus: int := 50

  // --- Injected randomness ----------------------------------------------------------

  /** Everything the source draws from Math.random() or Date.now() while applying one command. */
  datatype Draws = Draws(
    freshId: string,                   // the id of a new army, general or message
    generalStats: GeneralStats,        // strategy, bravery, logistics of a recruited general
    defenderArmy: Option<string>,      // the first hostile army at a battle's target tile, in insertion order
    attackRoll: UnitId -> real,        // per-unit-type loss draws of the attacker
    defenceRoll: UnitId -> real)       // per-unit-type loss draws of the defender

  /** An army of another owner standing on the target tile. */
  predicate HostileAt(armies: map<string, Army>, owner: string, target: string, id: string) {
    id in armies && armies[id].location == target && armies[id].ownerId != owner
  }

  /** The defender pick is what `find` would return: some hostile army there, or none when there is none. */
  predicate ValidDefenderPick(s: GameState, a: GameAction, pick: Option<string>) {
    a.MoveArmy? && a.armyId in s.armies ==>
      var owner := s.armies[a.armyId].ownerId;
      match pick
      case Some(id) => HostileAt(s.armies, owner, a.targetTileId, id)
      case None => forall id :: id in s.armies ==> !HostileAt(s.armies, owner, a.targetTileId, id)
  }

  predicate ValidStats(g: GeneralStats) {
    1 <= g.strategy <= 5 && 1 <= g.bravery <= 5 && 1 <= g.logistics <= 5
  }

  predicate ValidDraws(s: GameState, a: GameAction, d: Draws) {
    && ValidStats(d.generalStats)
    && ValidRoll(d.attackRoll)
    && ValidRoll(d.defenceRoll)
    && ValidDefenderPick(s, a, d.defenderArmy)
  }

  // --- Tile lookup ------------------------------------------------------------------------

  /** `map[id]`: the first tile carrying the id. */
  function FindTile(tiles: seq<MapTile>, id: string): (r: Option<nat>)
    ensures r.Some? ==> r.value < |tiles| && tiles[r.value].id == id
    ensures r.Some? ==> forall j :: 0 <= j < r.value ==> tiles[j].id != id
    ensures r.None? <==> forall i :: 0 <= i < |tiles| ==> tiles[i].id != id
  {
    if |tiles| == 0 then None
    else if tiles[0].id == id then Some(0)
    else match FindTile(tiles[1..], id)
      case Some(k) => Some(k + 1)
      case None => None
  }

  /** Two maps with the same tiles in the same order, differing at most in who owns them. */
  predicate SameGeography(before: seq<MapTile>, after: seq<MapTile>) {
    |after| == |before| && forall i :: 0 <= i < |before| ==> after[i] == before[i].(ownerId := after[i].ownerId)
  }

  /** What no command changes: diplomacy and terrain stay, and the message log only grows. */
  predicate Framed(s: GameState, s': GameState) {
    s'.relations == s.relations && SameGeography(s.tiles, s'.tiles) && s.messages <= s'.messages
  }

  /** A command other than NEXT_TURN: framed, and the calendar stands still. */
  predicate Timeless(s: GameState, s': GameState) {
    Framed(s, s') && s'.turn == s.turn && s'.month == s.month && s'.year == s.year
  }

  // --- NEXT_TURN -------------------------------------------------------------------------

  datatype Date = Date(turn: int, month: int, year: int)

  /** The calendar step: the month rolls over after 12 and then the year advances. */
  function NextDate(d: Date): (n: Date)
    ensures n.turn == d.turn + 1
    ensures d.month >= 0 ==> 1 <= n.month <= 12
    ensures n.year == (if d.month >= 12 then d.year + 1 else d.year)
    ensures 1 <= d.month < 12 ==> n.month == d.month + 1
    ensures d.month >= 12 ==> n.month == 1
  {
    var m := d.month + 1;
    if m > 12 then Date(d.turn + 1, 1, d.year + 1) else Date(d.turn + 1, m, d.year)
  }

  /** Research points a turn adds: the income's research points plus 50 per lab, counted again. */
  function ResearchGain(c: Country, tiles: seq<MapTile>, armies: map<string, Army>): real {
    Income(c, tiles, armies).researchPoints + (c.buildings[Lab] * LabResearchBonus) as real
  }

  /** The country is researching a known technology and this turn's gain reaches its cost. */
  predicate CompletesResearch(c: Country, tiles: seq<MapTile>, armies: map<string, Army>) {
    && Truthy(c.currentResearch)
    && c.currentResearch.value in TechTree
    && c.researchProgress + ResearchGain(c, tiles, armies) >= TechTree[c.currentResearch.value].cost as real
  }

  /** One nation's turn: credit money, food and oil, then advance research. */
  function AdvanceCountry(c: Country, tiles: seq<MapTile>, armies: map<string, Army>): (c': Country)
    ensures var inc := Income(c, tiles, armies);
            c'.resources == c.resources.(money := c.resources.money + inc.money,
                                         food := c.resources.food + inc.food,
                                         oil := c.resources.oil + inc.oil)
    ensures c' == c.(resources := c'.resources, researchedTechs := c'.researchedTechs,
                     currentResearch := c'.currentResearch, researchProgress := c'.researchProgress)
    ensures !Truthy(c.currentResearch) ==>
              c'.researchedTechs == c.researchedTechs && c'.currentResearch == c.currentResearch
              && c'.researchProgress == c.researchProgress
    ensures CompletesResearch(c, tiles, armies) ==>
              c'.researchedTechs == c.researchedTechs + [c.currentResearch.value]
              && c'.currentResearch.None? && c'.researchProgress == 0.0
    ensures Truthy(c.currentResearch) && !CompletesResearch(c, tiles, armies) ==>
              c'.researchedTechs == c.researchedTechs && c'.currentResearch == c.currentResearch
              && c'.researchProgress == c.researchProgress + ResearchGain(c, tiles, armies)
  {
    var inc := Income(c, tiles, armies);
    var res := c.resources.(money := c.resources.money + inc.money,
                            food := c.resources.food + inc.food,
                            oil := c.resources.oil + inc.oil);
    if !Truthy(c.currentResearch) then c.(resources := res)
    else
      var progress := c.researchProgress + ResearchGain(c, tiles, armies);
      var tech := c.currentResearch.value;
      if tech in TechTree && progress >= TechTree[tech].cost as real then
        c.(resources := res, researchedTechs := c.researchedTechs + [tech], currentResearch := None, researchProgress := 0.0)
      else
        c.(resources := res, researchProgress := progress)
  }

  /** The player nations that unlock a technology this turn; each gets a message. */
  function Unlockers(s: GameState): set<string> {
    set k | k in s.countries && s.countries[k].isPlayer && CompletesResearch(s.countries[k], s.tiles, s.armies)
  }

  /** Every nation's turn, each computed from the state as the turn began. */
  function AdvanceAll(countries: map<string, Country>, tiles: seq<MapTile>, armies: map<string, Army>): (cs: map<string, Country>)
    ensures cs.Keys == countries.Keys
    ensures forall k :: k in countries ==> cs[k] == AdvanceCountry(countries[k], tiles, armies)
  {
    map k | k in countries :: AdvanceCountry(countries[k], tiles, armies)
  }

  /** Every army gets its full movement back. */
  function Replenish(armies: map<string, Army>): (rs: map<string, Army>)
    ensures rs.Keys == armies.Keys
    ensures forall id :: id in armies ==> rs[id] == armies[id].(movementPoints := armies[id].maxMovement)
  {
    map id | id in armies :: armies[id].(movementPoints := armies[id].maxMovement)
  }

  /** `n` copies of a message appended to the log. */
  function Announce(log: seq<GameMessage>, n: nat, m: GameMessage): (log': seq<GameMessage>)
    ensures |log'| == |log| + n && log'[..|log|] == log
    ensures forall i :: |log| <= i < |log'| ==> log'[i] == m
  {
    log + seq(n, _ => m)
  }

  function AdvanceTurn(s: GameState, messageId: string): (s': GameState)
    ensures Date(s'.turn, s'.month, s'.year) == NextDate(Date(s.turn, s.month, s.year))
    ensures s'.countries.Keys == s.countries.Keys
    ensures forall k :: k in s.countries ==> s'.countries[k] == AdvanceCountry(s.countries[k], s.tiles, s.armies)
    ensures s'.armies.Keys == s.armies.Keys
    ensures forall id :: id in s.armies ==>
              s'.armies[id] == s.armies[id].(movementPoints := s.armies[id].maxMovement)
    ensures |s'.messages| == |s.messages| + |Unlockers(s)| && s'.messages[..|s.messages|] == s.messages
    ensures forall i :: |s.messages| <= i < |s'.messages| ==>
              s'.messages[i] == GameMessage(messageId, s.turn + 1, InfoMsg, false)
    ensures s' == s.(turn := s'.turn, month := s'.month, year := s'.year, countries := s'.countries,
                     armies := s'.armies, messages := s'.messages)
    ensures Framed(s, s')
  {
    var date := NextDate(Date(s.turn, s.month, s.year));
    s.(turn := date.turn, month := date.month, year := date.year,
       countries := AdvanceAll(s.countries, s.tiles, s.armies),
       armies := Replenish(s.armies),
       messages := Announce(s.messages, |Unlockers(s)|, GameMessage(messageId, date.turn, InfoMsg, false)))
  }

  // --- Purchases ----------------------------------------------------------------------

  /** `s'` is `s` after nation `k` paid `price`: its money went down by exactly that, its other
      resources and its armies, generals, research and identity are as before, and every other
      nation and the rest of the game are untouched. What was bought is stated by the caller. */
  predicate Purchased(s: GameState, s': GameState, k: string, price: real) {
    && k in s.countries && k in s'.countries
    && s' == s.(countries := s'.countries)
    && s'.countries.Keys == s.countries.Keys
    && (forall j :: j in s.countries && j != k ==> s'.countries[j] == s.countries[j])
    && var c, c' := s.countries[k], s'.countries[k];
       && c'.resources == c.resources.(money := c.resources.money - price)
       && c' == c.(resources := c'.resources, buildings := c'.buildings, units := c'.units)
  }

  /** Replacing nation `k` by a copy that only paid `price` and changed its buildings or reserves
      is a purchase, and leaves the calendar, diplomacy, map and log alone. */
  lemma PaymentIsPurchase(s: GameState, k: string, c': Country, price: real)
    requires k in s.countries
    requires c'.resources == s.countries[k].resources.(money := s.countries[k].resources.money - price)
    requires c' == s.countries[k].(resources := c'.resources, buildings := c'.buildings, units := c'.units)
    ensures Purchased(s, s.(countries := s.countries[k := c']), k, price)
    ensures Timeless(s, s.(countries := s.countries[k := c']))
  {
  }

  /** BUILD_BUILDING: pay cost × amount when the treasury covers it. An unaffordable order
      changes nothing; an affordable one debits exactly the price and credits exactly `amount`
      buildings of that type, and touches nothing else in the game. */
  function Build(s: GameState, countryId: string, b: BuildingType, amount: int): (r: Outcome<GameState>)
    ensures countryId !in s.countries <==> r == Err(MissingEntity)
    ensures countryId in s.countries ==>
              var c, price := s.countries[countryId], (BuildingOf(b).cost * amount) as real;
              c.resources.money < price ==> r == Ok(s)
    ensures countryId in s.countries ==>
              var c, price := s.countries[countryId], (BuildingOf(b).cost * amount) as real;
              c.resources.money >= price ==>
                && r.Ok? && Purchased(s, r.value, countryId, price)
                && var c' := r.value.countries[countryId];
                   && c'.units == c.units
                   && c'.buildings[b] == c.buildings[b] + amount
                   && (forall b' :: b' != b ==> c'.buildings[b'] == c.buildings[b'])
    ensures r.Ok? ==> Timeless(s, r.value)
  {
    if countryId !in s.countries then Err(MissingEntity)
    else
      var c := s.countries[countryId];
      var price := (BuildingOf(b).cost * amount) as real;
      if c.resources.money >= price then
        var c' := c.(resources := c.resources.(money := c.resources.money - price),
                     buildings := c.buildings[b := c.buildings[b] + amount]);
        PaymentIsPurchase(s, countryId, c', price);
        Ok(s.(countries := s.countries[countryId := c']))
      else Ok(s)
  }

  /** RECRUIT_UNIT: pay cost × amount when the treasury covers it, with the same all-or-nothing
      outcome as a building order. The unit's required technology is not checked here. */
  function Recruit(s: GameState, countryId: string, u: UnitId, amount: int): (r: Outcome<GameState>)
    ensures countryId !in s.countries <==> r == Err(MissingEntity)
    ensures countryId in s.countries ==>
              var c, price := s.countries[countryId], (UnitOf(u).cost * amount) as real;
              c.resources.money < price ==> r == Ok(s)
    ensures countryId in s.countries ==>
              var c, price := s.countries[countryId], (UnitOf(u).cost * amount) as real;
              c.resources.money >= price ==>
                && r.Ok? && Purchased(s, r.value, countryId, price)
                && var c' := r.value.countries[countryId];
                   && c'.buildings == c.buildings
                   && c'.units[u] == c.units[u] + amount
                   && (forall u' :: u' != u ==> c'.units[u'] == c.units[u'])
    ensures r.Ok? ==> Timeless(s, r.value)
  {
    if countryId !in s.countries then Err(MissingEntity)
    else
      var c := s.countries[countryId];
      var price := (UnitOf(u).cost * amount) as real;
      if c.resources.money >= price then
        var c' := c.(resources := c.resources.(money := c.resources.money - price),
                     units := c.units[u := c.units[u] + amount]);
        PaymentIsPurchase(s, countryId, c', price);
        Ok(s.(countries := s.countries[countryId := c']))
      else Ok(s)
  }

  /** RECRUIT_GENERAL: 5000 for a new, available general with the drawn stats. */
  function HireGeneral(s: GameState, countryId: string, id: string, stats: GeneralStats): (r: Outcome<GameState>)
    ensures countryId !in s.countries <==> r == Err(MissingEntity)
    ensures countryId in s.countries && s.countries[countryId].resources.money < GeneralPrice as real ==> r == Ok(s)
    ensures countryId in s.countries && s.countries[countryId].resources.money >= GeneralPrice as real ==>
              && r.Ok? && countryId in r.value.countries
              && var c := s.countries[countryId];
                 var c' := r.value.countries[countryId];
                 && c'.resources == c.resources.(money := c.resources.money - 5000.0)
                 && c'.generals == c.generals + [id]
                 && r.value.generals == s.generals[id := General(id, 1, 0, stats, Available)]
                 && r.value == s.(countries := s.countries[countryId := c'], generals := r.value.generals)
    ensures r.Ok? ==> Timeless(s, r.value)
  {
    if countryId !in s.countries then Err(MissingEntity)
    else
      var c := s.countries[countryId];
      if c.resources.money < GeneralPrice as real then Ok(s)
      else
        var c' := c.(resources := c.resources.(money := c.resources.money - GeneralPrice as real),
                     generals := c.generals + [id]);
        Ok(s.(countries := s.countries[countryId := c'],
              generals := s.generals[id := General(id, 1, 0, stats, Available)]))
  }

  // --- CREATE_ARMY ------------------------------------------------------------------------

  /** Some requested count exceeds the reserve of that unit type: the source throws. */
  predicate Overdrawn(reserve: UnitTable, requested: map<UnitId, int>) {
    exists u :: u in requested && reserve[u] < requested[u]
  }

  /** Movement of an army led by a general with the given logistics: 2 + floor(logistics / 5). */
  function ArmyMovement(logistics: int): (m: int)
    ensures 5 * (m - 2) <= logistics < 5 * (m - 2) + 5
  {
    2 + logistics / 5
  }

  function Debit(reserve: UnitTable, requested: map<UnitId, int>): (left: UnitTable)
    ensures forall u :: u in requested ==> left[u] + requested[u] == reserve[u]
    ensures forall u :: u !in requested ==> left[u] == reserve[u]
  {
    map u: UnitId | u in reserve :: if u in requested then reserve[u] - requested[u] else reserve[u]
  }

  function FormArmy(s: GameState, countryId: string, generalId: string, units: map<UnitId, int>,
                    location: string, id: string): (r: Outcome<GameState>)
    ensures r == Err(InsufficientReserves) <==>
              countryId in s.countries && Overdrawn(s.countries[countryId].units, units)
    ensures r == Err(MissingEntity) <==>
              countryId !in s.countries
              || (!Overdrawn(s.countries[countryId].units, units) && generalId !in s.generals)
    ensures r.Ok? ==>
              && countryId in s.countries && generalId in s.generals && countryId in r.value.countries
              && var c := s.countries[countryId];
                 var c' := r.value.countries[countryId];
                 var mp := ArmyMovement(s.generals[generalId].stats.logistics);
                 && (forall u :: u in units ==> c'.units[u] + units[u] == c.units[u])
                 && (forall u :: u !in units ==> c'.units[u] == c.units[u])
                 && c'.armies == c.armies + [id]
                 && c' == c.(units := c'.units, armies := c'.armies)
                 && r.value.armies == s.armies[id := Army(id, generalId, countryId, location, units, mp, mp)]
                 && r.value.generals == s.generals[generalId := s.generals[generalId].(status := Assigned)]
                 && r.value == s.(countries := s.countries[countryId := c'], armies := r.value.armies,
                                  generals := r.value.generals)
    ensures r.Ok? ==> Timeless(s, r.value)
  {
    if countryId !in s.countries then Err(MissingEntity)
    else
      var c := s.countries[countryId];
      if Overdrawn(c.units, units) then Err(InsufficientReserves)
      else if generalId !in s.generals then Err(MissingEntity)
      else
        var g := s.generals[generalId];
        var mp := ArmyMovement(g.stats.logistics);
        var c' := c.(units := Debit(c.units, units), armies := c.armies + [id]);
        Ok(s.(countries := s.countries[countryId := c'],
              armies := s.armies[id := Army(id, generalId, countryId, location, units, mp, mp)],
              generals := s.generals[generalId := g.(status := Assigned)]))
  }

  // --- MOVE_ARMY -------------------------------------------------------------------------

  /** Why a move silently does nothing (the source returns the input state). */
  predicate MoveRefused(s: GameState, armyId: string, target: string) {
    armyId !in s.armies
    || s.armies[armyId].movementPoints <= 0
    || (var from := FindTile(s.tiles, s.armies[armyId].location);
        var to := FindTile(s.tiles, target);
        from.Some? && to.Some? &&
        (Distance(s.tiles[from.value].coords, s.tiles[to.value].coords) > 1
         || s.armies[armyId].movementPoints < s.tiles[to.value].movementCost))
  }

  /** The target tile belongs to another nation (a falsy owner counts as unowned). */
  predicate EnemyTerritory(t: MapTile, owner: string) {
    Truthy(t.ownerId) && t.ownerId.value != owner
  }

  /** A friendly or empty move: relocate, pay the tile's cost, claim the tile if nobody holds it. */
  function MarchTo(s: GameState, armyId: string, ti: nat): (s': GameState)
    requires armyId in s.armies && ti < |s.tiles|
    ensures var a := s.armies[armyId];
            var t := s.tiles[ti];
            && s'.armies == s.armies[armyId := a.(location := t.id, movementPoints := a.movementPoints - t.movementCost)]
            && |s'.tiles| == |s.tiles|
            && s'.tiles[ti].ownerId == (if Truthy(t.ownerId) then t.ownerId else Some(a.ownerId))
            && s'.tiles[ti] == t.(ownerId := s'.tiles[ti].ownerId)
            && (forall j :: 0 <= j < |s.tiles| && j != ti ==> s'.tiles[j] == s.tiles[j])
            && s' == s.(armies := s'.armies, tiles := s'.tiles)
    ensures Timeless(s, s')
  {
    var a := s.armies[armyId];
    var t := s.tiles[ti];
    var owner := if Truthy(t.ownerId) then t.ownerId else Some(a.ownerId);
    s.(armies := s.armies[armyId := a.(location := t.id, movementPoints := a.movementPoints - t.movementCost)],
       tiles := s.tiles[ti := t.(ownerId := owner)])
  }

  /** The army fought: the picked hostile army, unless its id is falsy. */
  function Opponent(pick: Option<string>): (e: Option<string>)
    ensures e.Some? <==> Truthy(pick)
    ensures e.Some? ==> e == pick
  {
    if Truthy(pick) then pick else None
  }

  /** The defending side as the battle sees it. */
  function DefenderOf(s: GameState, e: Option<string>): (d: Option<Defender>)
    requires e.Some? ==> e.value in s.armies
    ensures d.Some? <==> e.Some?
    ensures e.Some? ==> d.value.armyId == e.value && d.value.units == s.armies[e.value].units
  {
    match e
    case None => None
    case Some(id) =>
      var x := s.armies[id];
      Some(Defender(id, x.units, if x.generalId in s.generals then Some(s.generals[x.generalId].stats.strategy) else None))
  }

  function BraveryOf(s: GameState, a: Army): Option<int> {
    if a.generalId in s.generals then Some(s.generals[a.generalId].stats.bravery) else None
  }

  /** The country the battle names as defender: the defending army's nation, else the tile owner's
      nation when it exists, else none (the source's 'Rebels' placeholder has no id). */
  function DefendingCountry(s: GameState, e: Option<string>, t: MapTile): Option<string>
    requires e.Some? ==> e.value in s.armies && s.armies[e.value].ownerId in s.countries
  {
    match e
    case Some(x) => Some(s.countries[s.armies[x].ownerId].id)
    case None => if t.ownerId.Some? && t.ownerId.value in s.countries then Some(s.countries[t.ownerId.value].id) else None
  }

  /** Remove an army from the global collection and from its owner's roster. */
  function Disband(s: GameState, id: string, owner: string): (s': GameState)
    requires owner in s.countries
    ensures s'.armies == s.armies - {id}
    ensures s'.countries == s.countries[owner := s.countries[owner].(armies := Without(s.countries[owner].armies, id))]
    ensures s' == s.(armies := s'.armies, countries := s'.countries)
  {
    var c := s.countries[owner];
    s.(armies := s.armies - {id}, countries := s.countries[owner := c.(armies := Without(c.armies, id))])
  }

  /** After the battle: the attacker is disbanded, and its general dies, when no unit is left. */
  function BuryFallen(s: GameState, armyId: string, a: Army): (r: Outcome<GameState>)
    requires armyId in s.armies && a.ownerId in s.countries
    ensures UnitTotal(s.armies[armyId].units) > 0 ==> r == Ok(s)
    ensures UnitTotal(s.armies[armyId].units) <= 0 ==>
              if a.generalId !in s.generals then r == Err(MissingEntity)
              else && r.Ok? && a.ownerId in r.value.countries
                   && r.value.armies == s.armies - {armyId}
                   && r.value.countries[a.ownerId].armies == Without(s.countries[a.ownerId].armies, armyId)
                   && r.value.generals == s.generals[a.generalId := s.generals[a.generalId].(status := Dead)]
    ensures r.Ok? ==> Timeless(s, r.value) && r.value.countries.Keys == s.countries.Keys
    ensures r.Ok? ==> r.value == s.(armies := r.value.armies, countries := r.value.countries, generals := r.value.generals)
  {
    if UnitTotal(s.armies[armyId].units) > 0 then Ok(s)
    else if a.generalId !in s.generals then Err(MissingEntity)
    else
      var d := Disband(s, armyId, a.ownerId);
      Ok(d.(generals := d.generals[a.generalId := d.generals[a.generalId].(status := Dead)]))
  }

  /** The battle is fought: both armies keep what survives, and the result is shown. */
  function Engage(s: GameState, armyId: string, e: Option<string>, b: Battle): (s1: GameState)
    requires armyId in s.armies
    requires e.Some? ==> e.value in s.armies && e.value != armyId
    requires e.Some? <==> b.defenderUnits.Some?
    ensures s1.armies.Keys == s.armies.Keys
    ensures s1.armies[armyId] == s.armies[armyId].(units := b.attackerUnits)
    ensures e.Some? ==> s1.armies[e.value] == s.armies[e.value].(units := b.defenderUnits.value)
    ensures forall k :: k in s.armies && k != armyId && Some(k) != e ==> s1.armies[k] == s.armies[k]
    ensures s1 == s.(armies := s1.armies, currentBattleResult := Some(b.result), modalOpen := true,
                     modalContent := Some(BattleResultModal))
    ensures Timeless(s, s1)
  {
    var a := s.armies[armyId];
    var armies := match e
                  case Some(x) => s.armies[armyId := a.(units := b.attackerUnits)][x := s.armies[x].(units := b.defenderUnits.value)]
                  case None => s.armies[armyId := a.(units := b.attackerUnits)];
    s.(armies := armies, currentBattleResult := Some(b.result), modalOpen := true, modalContent := Some(BattleResultModal))
  }

  /** After a won battle: the defending army is disbanded and the tile changes hands. */
  function Conquer(s: GameState, e: Option<string>, enemyOwner: string, ti: nat, owner: string): (s': GameState)
    requires ti < |s.tiles| && enemyOwner in s.countries
    ensures s'.armies == (if e.Some? then s.armies - {e.value} else s.armies)
    ensures |s'.tiles| == |s.tiles| && s'.tiles == s.tiles[ti := s.tiles[ti].(ownerId := Some(owner))]
    ensures s'.currentBattleResult == s.currentBattleResult && s'.modalOpen == s.modalOpen
    ensures s'.modalContent == s.modalContent && s'.generals == s.generals
    ensures s'.relations == s.relations && s'.turn == s.turn && s'.messages == s.messages
  {
    var s3 := match e
              case Some(x) => Disband(s, x, enemyOwner)
              case None => s;
    s3.(tiles := s3.tiles[ti := s3.tiles[ti].(ownerId := Some(owner))])
  }

  /** After the burial: take the tile on a win, and halt a surviving attacker, on the target when it won. */
  function OccupyOrHold(s2: GameState, armyId: string, fought: Army, e: Option<string>, enemyOwner: string,
                        ti: nat, won: bool): (s': GameState)
    requires enemyOwner in s2.countries && ti < |s2.tiles|
    ensures |s'.tiles| == |s2.tiles|
    ensures forall j :: 0 <= j < |s2.tiles| && j != ti ==> s'.tiles[j] == s2.tiles[j]
    ensures s'.tiles[ti] == if won then s2.tiles[ti].(ownerId := Some(fought.ownerId)) else s2.tiles[ti]
    ensures armyId in s'.armies <==> armyId in s2.armies
    ensures armyId in s'.armies ==>
              s'.armies[armyId] == fought.(movementPoints := 0, location := if won then s2.tiles[ti].id else fought.location)
    ensures forall x :: e == Some(x) && x != armyId ==> (x in s'.armies <==> x in s2.armies && !won)
    ensures forall k :: k in s2.armies && k != armyId && Some(k) != e ==> k in s'.armies && s'.armies[k] == s2.armies[k]
    ensures s'.generals == s2.generals && s'.currentBattleResult == s2.currentBattleResult
    ensures s'.modalOpen == s2.modalOpen && s'.modalContent == s2.modalContent
    ensures Timeless(s2, s')
  {
    var alive := armyId in s2.armies;
    if won then
      var s4 := Conquer(s2, e, enemyOwner, ti, fought.ownerId);
      if alive then s4.(armies := s4.armies[armyId := fought.(location := s2.tiles[ti].id, movementPoints := 0)]) else s4
    else
      if alive then s2.(armies := s2.armies[armyId := fought.(movementPoints := 0)]) else s2
  }

  /** What follows the battle: bury a fallen attacker, take the tile on a win, halt a survivor. */
  function Aftermath(s1: GameState, armyId: string, a: Army, e: Option<string>, enemyOwner: string,
                     ti: nat, won: bool): (r: Outcome<GameState>)
    requires armyId in s1.armies && a.ownerId in s1.countries && enemyOwner in s1.countries
    requires ti < |s1.tiles| && (e.Some? ==> e.value != armyId)
    requires a.ownerId == s1.armies[armyId].ownerId
    ensures r.Ok? ==>
              var s' := r.value;
              var t := s1.tiles[ti];
              && |s'.tiles| == |s1.tiles|
              && (forall j :: 0 <= j < |s1.tiles| && j != ti ==> s'.tiles[j] == s1.tiles[j])
              && s'.tiles[ti] == (if won then t.(ownerId := Some(a.ownerId)) else t)
              && (armyId in s'.armies ==>
                    && UnitTotal(s1.armies[armyId].units) > 0
                    && s'.armies[armyId] == s1.armies[armyId].(movementPoints := 0,
                                                               location := if won then t.id else s1.armies[armyId].location))
              && (armyId !in s'.armies ==>
                    a.generalId in s'.generals && s'.generals[a.generalId].status == Dead)
              && (forall x :: e == Some(x) && x in s1.armies ==> (x in s'.armies <==> !won))
              && (forall k :: k in s1.armies && k != armyId && Some(k) != e ==>
                    k in s'.armies && s'.armies[k] == s1.armies[k])
              && s'.currentBattleResult == s1.currentBattleResult && s'.modalOpen == s1.modalOpen
              && s'.modalContent == s1.modalContent
    ensures r.Ok? ==> Timeless(s1, r.value)
    ensures r.Ok? ==> r.value.generals == s1.generals
                      || (a.generalId in s1.generals
                          && r.value.generals == s1.generals[a.generalId := s1.generals[a.generalId].(status := Dead)])
  {
    match BuryFallen(s1, armyId, a)
    case Err(f) => Err(f)
    case Ok(s2) => Ok(OccupyOrHold(s2, armyId, s1.armies[armyId], e, enemyOwner, ti, won))
  }

  /** A battle fought and recorded, before anyone is cleaned up. `opponent` is the defending army
      if any, `enemyOwner` its nation (the attacker's own when there is no defending army), and
      `won` whether the result names the attacker's nation as winner. */
  datatype Engagement = Engagement(after: GameState, opponent: Option<string>, enemyOwner: string, won: bool)

  /** calculateBattle applied to the moving army and the first hostile army on the target tile.
      A missing nation is a TypeError; a power of exactly -1 leaves a loss ratio undefined. */
  function Fight(s: GameState, armyId: string, ti: nat, d: Draws): (r: Outcome<Engagement>)
    requires armyId in s.armies && ti < |s.tiles|
    requires ValidRoll(d.attackRoll) && ValidRoll(d.defenceRoll)
    requires d.defenderArmy.Some? ==> HostileAt(s.armies, s.armies[armyId].ownerId, s.tiles[ti].id, d.defenderArmy.value)
    ensures var a := s.armies[armyId];
            var e := Opponent(d.defenderArmy);
            (a.ownerId !in s.countries || (e.Some? && s.armies[e.value].ownerId !in s.countries)) <==> r == Err(MissingEntity)
    ensures r == Err(UndefinedArithmetic) <==>
              var a := s.armies[armyId];
              var e := Opponent(d.defenderArmy);
              && a.ownerId in s.countries && (e.Some? ==> s.armies[e.value].ownerId in s.countries)
              && !RatiosDefined(AttackPower(a.units, s.tiles[ti].biome, BraveryOf(s, a)),
                                DefensePower(s.tiles[ti], DefenderOf(s, e)))
    ensures r.Ok? ==>
              var a := s.armies[armyId];
              var t := s.tiles[ti];
              var f := r.value;
              var e := Opponent(d.defenderArmy);
              var att := AttackPower(a.units, t.biome, BraveryOf(s, a));
              var def := DefensePower(t, DefenderOf(s, e));
              && f.opponent == e
              && a.ownerId in s.countries && f.enemyOwner in s.countries
              && (e.Some? ==> e.value in s.armies && e.value != armyId && f.enemyOwner == s.armies[e.value].ownerId)
              && (e.None? ==> f.enemyOwner == a.ownerId)
              && f.after == s.(armies := f.after.armies, currentBattleResult := f.after.currentBattleResult,
                               modalOpen := true, modalContent := Some(BattleResultModal))
              && f.after.currentBattleResult.Some?
              && (f.won <==> f.after.currentBattleResult.value.winnerId == Some(a.ownerId))
              && (f.won <==> if AttackerPrevails(att, def) then s.countries[a.ownerId].id == a.ownerId
                             else DefendingCountry(s, e, t) == Some(a.ownerId))
              && f.after.armies.Keys == s.armies.Keys
              && f.after.armies[armyId] == a.(units := f.after.armies[armyId].units)
              && (e.Some? ==> f.after.armies[e.value] == s.armies[e.value].(units := f.after.armies[e.value].units))
              && (forall k :: k in s.armies && k != armyId && Some(k) != e ==> f.after.armies[k] == s.armies[k])
  {
    var a := s.armies[armyId];
    var t := s.tiles[ti];
    var e := Opponent(d.defenderArmy);
    if a.ownerId !in s.countries then Err(MissingEntity)
    else if e.Some? && s.armies[e.value].ownerId !in s.countries then Err(MissingEntity)
    else
      var defender := DefenderOf(s, e);
      var bravery := BraveryOf(s, a);
      if !RatiosDefined(AttackPower(a.units, t.biome, bravery), DefensePower(t, defender)) then Err(UndefinedArithmetic)
      else
        var b := Resolve(a, s.countries[a.ownerId].id, bravery, defender, DefendingCountry(s, e, t), t, d.attackRoll, d.defenceRoll);
        var enemyOwner := if e.Some? then s.armies[e.value].ownerId else a.ownerId;
        Ok(Engagement(Engage(s, armyId, e, b), e, enemyOwner, b.result.winnerId == Some(a.ownerId)))
  }

  /** The battle branch of MOVE_ARMY: fight, clean up the fallen, and take the tile on a win.
      The attacker stops for the turn whatever the outcome. */
  function Assault(s: GameState, armyId: string, ti: nat, d: Draws): (r: Outcome<GameState>)
    requires armyId in s.armies && ti < |s.tiles|
    requires ValidRoll(d.attackRoll) && ValidRoll(d.defenceRoll)
    requires d.defenderArmy.Some? ==> HostileAt(s.armies, s.armies[armyId].ownerId, s.tiles[ti].id, d.defenderArmy.value)
    ensures s.armies[armyId].ownerId !in s.countries ==> r == Err(MissingEntity)
    ensures r.Ok? ==>
              var a := s.armies[armyId];
              var t := s.tiles[ti];
              var s' := r.value;
              var won := s'.currentBattleResult.Some? && s'.currentBattleResult.value.winnerId == Some(a.ownerId);
              && s'.currentBattleResult.Some? && s'.modalOpen && s'.modalContent == Some(BattleResultModal)
              && |s'.tiles| == |s.tiles|
              && (forall j :: 0 <= j < |s.tiles| && j != ti ==> s'.tiles[j] == s.tiles[j])
              && s'.tiles[ti] == (if won then t.(ownerId := Some(a.ownerId)) else t)
              && (armyId in s'.armies ==>
                    && UnitTotal(s'.armies[armyId].units) > 0
                    && s'.armies[armyId] == a.(units := s'.armies[armyId].units, movementPoints := 0,
                                               location := if won then t.id else a.location))
              && (armyId !in s'.armies ==>
                    a.generalId in s'.generals && s'.generals[a.generalId].status == Dead)
              && (forall x :: Opponent(d.defenderArmy) == Some(x) ==> (x in s'.armies <==> !won))
              && (forall k :: k in s.armies && k != armyId && Some(k) != Opponent(d.defenderArmy) ==>
                    k in s'.armies && s'.armies[k] == s.armies[k])
              && s'.relations == s.relations && s'.turn == s.turn && s'.messages == s.messages
    ensures r.Ok? ==> Timeless(s, r.value)
    ensures r.Ok? ==> var g := s.armies[armyId].generalId;
                      r.value.generals == s.generals
                      || (g in s.generals && r.value.generals == s.generals[g := s.generals[g].(status := Dead)])
  {
    match Fight(s, armyId, ti, d)
    case Err(fault) => Err(fault)
    case Ok(f) => Aftermath(f.after, armyId, s.armies[armyId], f.opponent, f.enemyOwner, ti, f.won)
  }

  function Move(s: GameState, armyId: string, target: string, d: Draws): (r: Outcome<GameState>)
    requires ValidRoll(d.attackRoll) && ValidRoll(d.defenceRoll)
    requires ValidDefenderPick(s, MoveArmy(armyId, target), d.defenderArmy)
    ensures MoveRefused(s, armyId, target) ==> r == Ok(s)
    ensures !MoveRefused(s, armyId, target) ==>
              var from := FindTile(s.tiles, s.armies[armyId].location);
              var to := FindTile(s.tiles, target);
              if from.None? || to.None? then r == Err(MissingEntity)
              else if EnemyTerritory(s.tiles[to.value], s.armies[armyId].ownerId) then r == Assault(s, armyId, to.value, d)
              else r == Ok(MarchTo(s, armyId, to.value))
    ensures r.Ok? ==> Timeless(s, r.value)
    ensures r.Ok? ==> r.value.generals == s.generals
                      || (armyId in s.armies && s.armies[armyId].generalId in s.generals
                          && var g := s.armies[armyId].generalId;
                             r.value.generals == s.generals[g := s.generals[g].(status := Dead)])
  {
    if armyId !in s.armies || s.armies[armyId].movementPoints <= 0 then Ok(s)
    else
      var a := s.armies[armyId];
      var from := FindTile(s.tiles, a.location);
      var to := FindTile(s.tiles, target);
      if from.None? || to.None? then Err(MissingEntity)
      else
        var t := s.tiles[to.value];
        if Distance(s.tiles[from.value].coords, t.coords) > 1 then Ok(s)
        else if a.movementPoints < t.movementCost then Ok(s)
        else if EnemyTerritory(t, a.ownerId) then Assault(s, armyId, to.value, d)
        else Ok(MarchTo(s, armyId, to.value))
  }

  // --- The reducer -------------------------------------------------------------------------

  /** The commands the reducer resolves without looking at the state. */
  predicate PassThrough(a: GameAction) {
    a.StartResearch? || a.SelectCountry? || a.DiplomacyAction? || a.SendSpy? || a.DismissMessage?
  }

  /** The commands that only move the selection or open and close the dialog. */
  predicate InterfaceOnly(a: GameAction) {
    a.SelectTile? || a.SelectArmy? || a.CloseModal? || a.OpenModal?
  }

  /** SELECT_TILE (which also clears the selected army), SELECT_ARMY, OPEN_MODAL and CLOSE_MODAL. */
  function Interact(s: GameState, a: GameAction): (s': GameState)
    requires InterfaceOnly(a)
    ensures s' == s.(selectedTileId := s'.selectedTileId, selectedArmyId := s'.selectedArmyId,
                     modalOpen := s'.modalOpen, modalContent := s'.modalContent)
    ensures a.SelectTile? ==> s'.selectedTileId == a.tileId && s'.selectedArmyId.None?
    ensures a.SelectArmy? ==> s'.selectedArmyId == a.selArmy && s'.selectedTileId == s.selectedTileId
    ensures a.CloseModal? ==> !s'.modalOpen && s'.modalContent == s.modalContent
    ensures a.OpenModal? ==> s'.modalOpen && s'.modalContent == a.content
  {
    match a
    case SelectTile(t) => s.(selectedTileId := t, selectedArmyId := None)
    case SelectArmy(id) => s.(selectedArmyId := id)
    case CloseModal => s.(modalOpen := false)
    case OpenModal(content) => s.(modalOpen := true, modalContent := content)
  }

  /** gameReducer. Only the calendar command moves time, no command touches diplomacy or the terrain,
      and the message log only grows. */
  function Reduce(s: GameState, a: GameAction, d: Draws): (r: Outcome<GameState>)
    requires ValidDraws(s, a, d)
    ensures PassThrough(a) ==> r == Ok(s)
    ensures r.Err? ==> a.BuildBuilding? || a.RecruitUnit? || a.CreateArmy? || a.RecruitGeneral? || a.MoveArmy?
    ensures r.Ok? ==> Framed(s, r.value)
    ensures r.Ok? && !a.NextTurn? ==> Timeless(s, r.value)
  {
    match a
    case NextTurn => Ok(AdvanceTurn(s, d.freshId))
    case BuildBuilding(c, b, n) => Build(s, c, b, n)
    case RecruitUnit(c, u, n) => Recruit(s, c, u, n)
    case CreateArmy(c, g, units, loc) => FormArmy(s, c, g, units, loc, d.freshId)
    case RecruitGeneral(c) => HireGeneral(s, c, d.freshId, d.generalStats)
    case MoveArmy(id, target) => Move(s, id, target, d)
    case SelectTile(_) => Ok(Interact(s, a))
    case SelectArmy(_) => Ok(Interact(s, a))
    case CloseModal => Ok(Interact(s, a))
    case OpenModal(_) => Ok(Interact(s, a))
    // Pass-through commands: the source resolves nothing for these.
    case StartResearch(_, _) => Ok(s)
    case SelectCountry(_) => Ok(s)
    case DiplomacyAction(_, _, _) => Ok(s)
    case SendSpy(_, _, _) => Ok(s)
    case DismissMessage(_) => Ok(s)
  }
}
