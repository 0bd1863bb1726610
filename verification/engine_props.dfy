/** Properties of the reducer that relate its commands to the rules of the game: the calendar,
    the economy and research of a turn, conservation of purchases and reserves, movement, and the
    life cycle of generals. */
module EngineProps {
  import opened Types
  import opened Catalogue
  import opened Economy
  import opened Engine

  // --- Calendar -------------------------------------------------------------------------

  /** The date after `n` calendar steps. */
  function DateAfter(d: Date, n: nat): Date
    decreases n
  {
    if n == 0 then d else DateAfter(NextDate(d), n - 1)
  }

  /** Counting months from a valid date: n steps move the month n places round the year and
      carry the overflow into the year. */
  lemma {:induction false} CalendarArithmetic(d: Date, n: nat)
    requires 1 <= d.month <= 12
    ensures DateAfter(d, n) == Date(d.turn + n, (d.month - 1 + n) % 12 + 1, d.year + (d.month - 1 + n) / 12)
    decreases n
  {
    if n > 0 {
      var d1 := NextDate(d);
      CalendarArithmetic(d1, n - 1);
      if d.month == 12 {
        assert d1 == Date(d.turn + 1, 1, d.year + 1);
        assert (n - 1) % 12 == (11 + n) % 12 && 1 + (n - 1) / 12 == (11 + n) / 12;
      } else {
        assert d1 == Date(d.turn + 1, d.month + 1, d.year);
      }
    }
  }

  /** Twelve turns bring back the same month of the next year. */
  lemma TwelveTurnsMakeAYear(d: Date)
    requires 1 <= d.month <= 12
    ensures DateAfter(d, 12) == Date(d.turn + 12, d.month, d.year + 1)
  {
    CalendarArithmetic(d, 12);
    assert (d.month - 1 + 12) % 12 == d.month - 1 && (d.month - 1 + 12) / 12 == 1;
  }

  /** NEXT_TURN on a valid month: one more turn, the month stays in 1..12, and the year advances
      exactly when December rolls over into January. */
  lemma NextTurnCalendar(s: GameState, d: Draws)
    requires ValidDraws(s, NextTurn, d) && 1 <= s.month <= 12
    ensures Reduce(s, NextTurn, d).Ok?
    ensures var s' := Reduce(s, NextTurn, d).value;
            && s'.turn == s.turn + 1
            && 1 <= s'.month <= 12
            && (s'.year == s.year + 1 <==> s.month == 12)
            && (s'.year == s.year <==> s.month < 12)
            && (s.month == 12 <==> s'.month == 1)
  {
  }

  // --- Economy and research of a turn ---------------------------------------------------

  /** A turn credits money, food and oil by the nation's income; energy, population and the
      stockpiled research points are never credited. */
  lemma NextTurnCreditsOnlyMoneyFoodOil(s: GameState, d: Draws, k: string)
    requires ValidDraws(s, NextTurn, d) && k in s.countries
    ensures Reduce(s, NextTurn, d) == Ok(AdvanceTurn(s, d.freshId))
    ensures k in Reduce(s, NextTurn, d).value.countries
    ensures var c := s.countries[k];
            var c' := Reduce(s, NextTurn, d).value.countries[k];
            var inc := Income(c, s.tiles, s.armies);
            && c'.resources.money == c.resources.money + inc.money
            && c'.resources.food == c.resources.food + inc.food
            && c'.resources.oil == c.resources.oil + inc.oil
            && c'.resources.energy == c.resources.energy
            && c'.resources.population == c.resources.population
            && c'.resources.researchPoints == c.resources.researchPoints
            && c'.buildings == c.buildings && c'.units == c.units && c'.armies == c.armies
  {
  }

  /** A nation without land, buildings, reserves or armies gains exactly a thousandth of its
      population in money per turn, and no food or oil. */
  lemma IdleNationEarnsPopulationTax(s: GameState, d: Draws, k: string)
    requires ValidDraws(s, NextTurn, d) && k in s.countries
    requires forall i :: 0 <= i < |s.tiles| ==> !OwnedBy(s.tiles[i], s.countries[k].id)
    requires forall b :: s.countries[k].buildings[b] == 0
    requires forall u :: s.countries[k].units[u] == 0
    requires s.countries[k].armies == []
    ensures Reduce(s, NextTurn, d) == Ok(AdvanceTurn(s, d.freshId))
    ensures k in Reduce(s, NextTurn, d).value.countries
    ensures var c := s.countries[k];
            var c' := Reduce(s, NextTurn, d).value.countries[k];
            && c'.resources.money == c.resources.money + c.resources.population * 0.001
            && c'.resources.food == c.resources.food
            && c'.resources.oil == c.resources.oil
  {
    IdleNationIncome(s.countries[k], s.tiles, s.armies);
  }

  /** Labs are counted twice: 50 through the income and 50 more directly, 100 per lab. */
  lemma ResearchGainPerLab(c: Country, tiles: seq<MapTile>, armies: map<string, Army>)
    requires c.buildings[Lab] >= 0
    ensures ResearchGain(c, tiles, armies) == 100.0 * c.buildings[Lab] as real
  {
    IncomeResearchIsLabOutput(c, tiles, armies);
  }

  /** Research during a turn: a completed technology is recorded and the slot is freed; an
      unfinished one accumulates the turn's gain; a nation researching nothing is unaffected.
      Every army regains its full movement. */
  lemma NextTurnResearch(s: GameState, d: Draws, k: string)
    requires ValidDraws(s, NextTurn, d) && k in s.countries
    ensures Reduce(s, NextTurn, d) == Ok(AdvanceTurn(s, d.freshId))
    ensures var s' := Reduce(s, NextTurn, d).value;
            var c := s.countries[k];
            && k in s'.countries
            && var c' := s'.countries[k];
               && (CompletesResearch(c, s.tiles, s.armies) ==>
                     c'.researchedTechs == c.researchedTechs + [c.currentResearch.value]
                     && c'.currentResearch == None && c'.researchProgress == 0.0)
               && (Truthy(c.currentResearch) && !CompletesResearch(c, s.tiles, s.armies) ==>
                     c'.researchedTechs == c.researchedTechs && c'.currentResearch == c.currentResearch
                     && c'.researchProgress == c.researchProgress + ResearchGain(c, s.tiles, s.armies))
               && (!Truthy(c.currentResearch) ==>
                     c'.researchedTechs == c.researchedTechs && c'.researchProgress == c.researchProgress)
    ensures var s' := Reduce(s, NextTurn, d).value;
            s'.armies.Keys == s.armies.Keys
            && forall id :: id in s'.armies ==> s'.armies[id].movementPoints == s'.armies[id].maxMovement
  {
  }

  /** With a single player nation, a turn announces at most one unlocked technology. */
  lemma AtMostOneUnlockMessage(s: GameState, d: Draws)
    requires ValidDraws(s, NextTurn, d)
    requires forall j, k :: j in s.countries && k in s.countries && s.countries[j].isPlayer && s.countries[k].isPlayer ==> j == k
    ensures |Reduce(s, NextTurn, d).value.messages| <= |s.messages| + 1
  {
    var u := Unlockers(s);
    if u != {} {
      var x :| x in u;
      assert u == {x};
    }
  }

  // --- Purchases -------------------------------------------------------------------------

  /** The money nation `c` lost on its way to `c'` is exactly the price of the buildings of type
      `b` it gained, and it gained the whole order of `n` exactly when it could pay for it. */
  predicate BuildingsPaidFor(c: Country, c': Country, b: BuildingType, n: int) {
    && c'.resources.money + (BuildingOf(b).cost * (c'.buildings[b] - c.buildings[b])) as real == c.resources.money
    && (c'.buildings[b] == c.buildings[b] + n <==> c.resources.money >= (BuildingOf(b).cost * n) as real || n == 0)
  }

  /** The same for reserve units of type `u`. */
  predicate UnitsPaidFor(c: Country, c': Country, u: UnitId, n: int) {
    && c'.resources.money + (UnitOf(u).cost * (c'.units[u] - c.units[u])) as real == c.resources.money
    && (c'.units[u] == c.units[u] + n <==> c.resources.money >= (UnitOf(u).cost * n) as real || n == 0)
  }

  /** Money spent on buildings is exactly paid for: whatever the branch, the money lost equals the
      price of the buildings gained. */
  lemma BuildConservesValue(s: GameState, d: Draws, k: string, b: BuildingType, n: int)
    requires ValidDraws(s, BuildBuilding(k, b, n), d) && k in s.countries
    ensures Reduce(s, BuildBuilding(k, b, n), d).Ok?
    ensures var c := s.countries[k];
            var s' := Reduce(s, BuildBuilding(k, b, n), d).value;
            && k in s'.countries
            && BuildingsPaidFor(c, s'.countries[k], b, n)
  {
    BuildPaysItsPrice(s, k, b, n);
    assert Reduce(s, BuildBuilding(k, b, n), d) == Build(s, k, b, n);
  }

  /** Whichever branch `Build` takes, the nation's money and building count move together. */
  lemma BuildPaysItsPrice(s: GameState, k: string, b: BuildingType, n: int)
    requires k in s.countries
    ensures Build(s, k, b, n).Ok?
    ensures var c := s.countries[k];
            var s' := Build(s, k, b, n).value;
            && k in s'.countries
            && BuildingsPaidFor(c, s'.countries[k], b, n)
  {
    var c := s.countries[k];
    var c' := Build(s, k, b, n).value.countries[k];
    if c.resources.money >= (BuildingOf(b).cost * n) as real {
      assert c'.buildings[b] - c.buildings[b] == n;
    } else {
      assert c'.buildings[b] - c.buildings[b] == 0;
    }
  }

  /** The same for reserve units. */
  lemma RecruitConservesValue(s: GameState, d: Draws, k: string, u: UnitId, n: int)
    requires ValidDraws(s, RecruitUnit(k, u, n), d) && k in s.countries
    ensures Reduce(s, RecruitUnit(k, u, n), d).Ok?
    ensures var c := s.countries[k];
            var s' := Reduce(s, RecruitUnit(k, u, n), d).value;
            && k in s'.countries
            && UnitsPaidFor(c, s'.countries[k], u, n)
  {
    RecruitPaysItsPrice(s, k, u, n);
    assert Reduce(s, RecruitUnit(k, u, n), d) == Recruit(s, k, u, n);
  }

  /** Whichever branch `Recruit` takes, the nation's money and reserve count move together. */
  lemma RecruitPaysItsPrice(s: GameState, k: string, u: UnitId, n: int)
    requires k in s.countries
    ensures Recruit(s, k, u, n).Ok?
    ensures var c := s.countries[k];
            var s' := Recruit(s, k, u, n).value;
            && k in s'.countries
            && UnitsPaidFor(c, s'.countries[k], u, n)
  {
    var c := s.countries[k];
    var c' := Recruit(s, k, u, n).value.countries[k];
    if c.resources.money >= (UnitOf(u).cost * n) as real {
      assert c'.units[u] - c.units[u] == n;
    } else {
      assert c'.units[u] - c.units[u] == 0;
    }
  }

  /** Recruiting does not consult the technology a unit requires: a nation that has never
      researched nuclear technology can still buy a nuke it can afford. */
  lemma RecruitIgnoresTechnology(s: GameState, d: Draws, k: string, n: int)
    requires ValidDraws(s, RecruitUnit(k, Nuke, n), d) && k in s.countries
    requires "nuclear_tech" !in s.countries[k].researchedTechs
    requires s.countries[k].resources.money >= (UnitOf(Nuke).cost * n) as real
    ensures Reduce(s, RecruitUnit(k, Nuke, n), d).Ok?
    ensures k in Reduce(s, RecruitUnit(k, Nuke, n), d).value.countries
    ensures Reduce(s, RecruitUnit(k, Nuke, n), d).value.countries[k].units[Nuke] == s.countries[k].units[Nuke] + n
  {
  }

  /** A hired general costs 5000 and starts available at level 1 with every stat in 1..5;
      a nation that cannot pay gets nothing. */
  lemma HiredGeneral(s: GameState, d: Draws, k: string)
    requires ValidDraws(s, RecruitGeneral(k), d) && k in s.countries
    ensures Reduce(s, RecruitGeneral(k), d).Ok?
    ensures var s' := Reduce(s, RecruitGeneral(k), d).value;
            if s.countries[k].resources.money < 5000.0 then s' == s
            else
              && d.freshId in s'.generals
              && var g := s'.generals[d.freshId];
                 && g.status == Available && g.level == 1 && g.xp == 0
                 && 1 <= g.stats.strategy <= 5 && 1 <= g.stats.bravery <= 5 && 1 <= g.stats.logistics <= 5
                 && k in s'.countries
                 && s'.countries[k].resources.money + 5000.0 == s.countries[k].resources.money
                 && s'.countries[k].generals == s.countries[k].generals + [d.freshId]
  {
  }

  // --- CREATE_ARMY ------------------------------------------------------------------------

  /** How many units of type `u` a partial unit map holds. */
  function CountOf(m: map<UnitId, int>, u: UnitId): int {
    if u in m then m[u] else 0
  }

  /** CREATE_ARMY throws exactly when the reserve cannot supply some requested count. */
  lemma CreateArmyThrowsIffOverdrawn(s: GameState, d: Draws, k: string, g: string, units: map<UnitId, int>, loc: string)
    requires ValidDraws(s, CreateArmy(k, g, units, loc), d) && k in s.countries
    ensures Reduce(s, CreateArmy(k, g, units, loc), d) == Err(InsufficientReserves)
            <==> exists u :: u in units && s.countries[k].units[u] < units[u]
  {
  }

  /** Forming an army moves units from the reserve into the field without creating or losing any;
      the new army starts with full movement 2 + floor(logistics / 5), joins the nation's roster,
      and its general is assigned. */
  lemma CreateArmyConservesUnits(s: GameState, d: Draws, k: string, g: string, units: map<UnitId, int>, loc: string)
    requires ValidDraws(s, CreateArmy(k, g, units, loc), d)
    requires Reduce(s, CreateArmy(k, g, units, loc), d).Ok?
    ensures var s' := Reduce(s, CreateArmy(k, g, units, loc), d).value;
            && k in s.countries && k in s'.countries && g in s.generals && g in s'.generals
            && d.freshId in s'.armies
            && var army := s'.armies[d.freshId];
               && (forall u :: s'.countries[k].units[u] + CountOf(army.units, u) == s.countries[k].units[u])
               && army.ownerId == k && army.generalId == g && army.location == loc
               && army.movementPoints == army.maxMovement
               && 5 * (army.maxMovement - 2) <= s.generals[g].stats.logistics < 5 * (army.maxMovement - 1)
               && s'.countries[k].armies == s.countries[k].armies + [d.freshId]
               && s'.generals[g].status == Assigned
  {
    var s' := Reduce(s, CreateArmy(k, g, units, loc), d).value;
    var army := s'.armies[d.freshId];
    assert army.units == units;
    forall u
      ensures s'.countries[k].units[u] + CountOf(army.units, u) == s.countries[k].units[u]
    {
    }
  }

  /** The engine assigns a general whatever its status: a dead general can be put back at the head
      of an army (only the user interface offers living generals alone). */
  lemma AssignmentIgnoresStatus(s: GameState, d: Draws, k: string, g: string, loc: string)
    requires ValidDraws(s, CreateArmy(k, g, map[], loc), d)
    requires k in s.countries && g in s.generals && s.generals[g].status == Dead
    ensures Reduce(s, CreateArmy(k, g, map[], loc), d).Ok?
    ensures g in Reduce(s, CreateArmy(k, g, map[], loc), d).value.generals
    ensures Reduce(s, CreateArmy(k, g, map[], loc), d).value.generals[g].status == Assigned
  {
  }

  // --- MOVE_ARMY ------------------------------------------------------------------------

  /** A refused move (missing or exhausted army, target out of reach, too expensive) is a no-op. */
  lemma RefusedMoveChangesNothing(s: GameState, d: Draws, id: string, target: string)
    requires ValidDraws(s, MoveArmy(id, target), d) && MoveRefused(s, id, target)
    ensures Reduce(s, MoveArmy(id, target), d) == Ok(s)
  {
  }

  /** A move into the army's own nation or unclaimed land, within reach: the army stands on the
      target, has paid exactly the tile's cost, and the tile is claimed only when it was unowned.
      A move of distance 0 onto the army's own tile is allowed and also costs movement. */
  lemma PeacefulMove(s: GameState, d: Draws, id: string, target: string)
    requires ValidDraws(s, MoveArmy(id, target), d) && !MoveRefused(s, id, target)
    requires id in s.armies
    requires FindTile(s.tiles, s.armies[id].location).Some? && FindTile(s.tiles, target).Some?
    requires !EnemyTerritory(s.tiles[FindTile(s.tiles, target).value], s.armies[id].ownerId)
    ensures Reduce(s, MoveArmy(id, target), d).Ok?
    ensures var s' := Reduce(s, MoveArmy(id, target), d).value;
            var a := s.armies[id];
            var ti := FindTile(s.tiles, target).value;
            var t := s.tiles[ti];
            && id in s'.armies
            && s'.armies[id].location == target
            && s'.armies[id].movementPoints == a.movementPoints - t.movementCost >= 0
            && s'.armies[id].units == a.units
            && (Truthy(t.ownerId) ==> s'.tiles[ti] == t)
            && (!Truthy(t.ownerId) ==> s'.tiles[ti].ownerId == Some(a.ownerId))
            && s'.countries == s.countries && s'.generals == s.generals
  {
    var ti := FindTile(s.tiles, target).value;
    assert Reduce(s, MoveArmy(id, target), d) == Move(s, id, target, d);
    assert Move(s, id, target, d) == Ok(MarchTo(s, id, ti));
    MarchArrives(s, id, ti);
  }

  lemma MarchArrives(s: GameState, id: string, ti: nat)
    requires id in s.armies && ti < |s.tiles|
    ensures var s' := MarchTo(s, id, ti);
            var a := s.armies[id];
            var t := s.tiles[ti];
            && id in s'.armies
            && s'.armies[id].location == t.id
            && s'.armies[id].movementPoints == a.movementPoints - t.movementCost
            && s'.armies[id].units == a.units
            && (Truthy(t.ownerId) ==> s'.tiles[ti] == t)
            && (!Truthy(t.ownerId) ==> s'.tiles[ti].ownerId == Some(a.ownerId))
            && s'.countries == s.countries && s'.generals == s.generals
  {
  }

  /** A move onto a tile that was not found is an error, unless the army could not move at all. */
  lemma MoveOffTheMapFails(s: GameState, d: Draws, id: string, target: string)
    requires ValidDraws(s, MoveArmy(id, target), d)
    requires id in s.armies && s.armies[id].movementPoints > 0
    requires FindTile(s.tiles, target).None?
    ensures Reduce(s, MoveArmy(id, target), d) == Err(MissingEntity)
  {
  }

  /** After an attack the attacker, if it still exists, has no movement left, stands on the
      target exactly when the tile was taken, and the tile changes hands only to the attacker. */
  lemma AttackEndsTheTurn(s: GameState, d: Draws, id: string, target: string)
    requires ValidDraws(s, MoveArmy(id, target), d) && !MoveRefused(s, id, target)
    requires id in s.armies
    requires FindTile(s.tiles, s.armies[id].location).Some? && FindTile(s.tiles, target).Some?
    requires EnemyTerritory(s.tiles[FindTile(s.tiles, target).value], s.armies[id].ownerId)
    requires Reduce(s, MoveArmy(id, target), d).Ok?
    ensures var s' := Reduce(s, MoveArmy(id, target), d).value;
            var a := s.armies[id];
            var ti := FindTile(s.tiles, target).value;
            var taken := s'.tiles[ti].ownerId == Some(a.ownerId);
            && s'.currentBattleResult.Some? && s'.modalOpen
            && (taken <==> s'.currentBattleResult.value.winnerId == Some(a.ownerId))
            && (!taken ==> s'.tiles[ti] == s.tiles[ti])
            && (id in s'.armies ==>
                  s'.armies[id].movementPoints == 0
                  && s'.armies[id].location == (if taken then target else a.location))
            && (id !in s'.armies ==> s'.generals[a.generalId].status == Dead)
  {
    var ti := FindTile(s.tiles, target).value;
    assert s.tiles[ti].ownerId != Some(s.armies[id].ownerId);
    assert Reduce(s, MoveArmy(id, target), d) == Move(s, id, target, d);
    assert Move(s, id, target, d) == Assault(s, id, ti, d);
  }

  // --- Selection ---------------------------------------------------------------------------

  /** Selecting a tile clears the army selection, and selecting it again changes nothing. */
  lemma SelectTileIdempotent(s: GameState, d: Draws, t: Option<string>)
    requires ValidDraws(s, SelectTile(t), d)
    ensures Reduce(s, SelectTile(t), d).Ok?
    ensures var s1 := Reduce(s, SelectTile(t), d).value;
            && s1.selectedTileId == t && s1.selectedArmyId == None
            && ValidDraws(s1, SelectTile(t), d)
            && Reduce(s1, SelectTile(t), d) == Ok(s1)
  {
  }

  // --- Generals ---------------------------------------------------------------------------

  /** How one listed general may fare in one step: it stays listed with its record unchanged but
      for the status, becomes assigned only through CREATE_ARMY naming it, and dies only in MOVE_ARMY. */
  predicate StatusStep(s: GameState, s': GameState, a: GameAction, g: string)
    requires g in s.generals
  {
    && g in s'.generals
    && var st := s'.generals[g].status;
       && (st == Assigned && s.generals[g].status != Assigned ==> a.CreateArmy? && a.generalId == g)
       && (st == Dead && s.generals[g].status != Dead ==> a.MoveArmy?)
       && (st != s.generals[g].status ==> st == Assigned || st == Dead)
       && s'.generals[g] == s.generals[g].(status := st)
  }

  /** No command demotes or forgets a general: a listed general keeps its status, becomes assigned
      through CREATE_ARMY, or falls with its army in MOVE_ARMY. A recruited general's id is fresh. */
  lemma GeneralStatusTransitions(s: GameState, a: GameAction, d: Draws, g: string)
    requires ValidDraws(s, a, d) && Reduce(s, a, d).Ok? && g in s.generals
    requires a.RecruitGeneral? ==> d.freshId !in s.generals
    ensures StatusStep(s, Reduce(s, a, d).value, a, g)
  {
    if a.MoveArmy? {
      MoveStatusStep(s, a, d, g);
    } else if a.CreateArmy? || a.RecruitGeneral? {
      StaffingStatusStep(s, a, d, g);
    } else {
      QuietStatusStep(s, a, d, g);
    }
  }

  lemma MoveStatusStep(s: GameState, a: GameAction, d: Draws, g: string)
    requires ValidDraws(s, a, d) && Reduce(s, a, d).Ok? && g in s.generals && a.MoveArmy?
    ensures StatusStep(s, Reduce(s, a, d).value, a, g)
  {
    assert Reduce(s, a, d) == Move(s, a.armyId, a.targetTileId, d);
  }

  lemma StaffingStatusStep(s: GameState, a: GameAction, d: Draws, g: string)
    requires ValidDraws(s, a, d) && Reduce(s, a, d).Ok? && g in s.generals
    requires a.CreateArmy? || a.RecruitGeneral?
    requires a.RecruitGeneral? ==> d.freshId !in s.generals
    ensures StatusStep(s, Reduce(s, a, d).value, a, g)
  {
    match a
    case CreateArmy(k, gen, units, loc) => assert Reduce(s, a, d) == FormArmy(s, k, gen, units, loc, d.freshId);
    case RecruitGeneral(k) => assert Reduce(s, a, d) == HireGeneral(s, k, d.freshId, d.generalStats);
  }

  /** The remaining commands leave the generals alone. */
  lemma QuietStatusStep(s: GameState, a: GameAction, d: Draws, g: string)
    requires ValidDraws(s, a, d) && Reduce(s, a, d).Ok? && g in s.generals
    requires !a.MoveArmy? && !a.CreateArmy? && !a.RecruitGeneral?
    ensures Reduce(s, a, d).value.generals == s.generals
  {
    if a.NextTurn? {
      assert Reduce(s, a, d) == Ok(AdvanceTurn(s, d.freshId));
    } else if a.BuildBuilding? {
      assert Reduce(s, a, d) == Build(s, a.countryId, a.buildingId, a.amount);
    } else if a.RecruitUnit? {
      assert Reduce(s, a, d) == Recruit(s, a.countryId, a.unitId, a.amount);
    } else if InterfaceOnly(a) {
      assert Reduce(s, a, d) == Ok(Interact(s, a));
    } else {
      assert PassThrough(a);
    }
  }
}
