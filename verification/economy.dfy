/** Per-nation, per-turn income (calculateCountryIncome in gameEngine.ts). All terms are additive;
    nothing is clamped, so money, food and oil may go negative. */
module Economy {
  import opened Types
  import opened Catalogue

  /** A money/food/oil delta. */
  datatype Yield = Yield(money: real, food: real, oil: real)

  const NoYield := Yield(0.0, 0.0, 0.0)

  function Plus(a: Yield, b: Yield): Yield {
    Yield(a.money + b.money, a.food + b.food, a.oil + b.oil)
  }

  // --- Territory -------------------------------------------------------------------

  predicate OwnedBy(t: MapTile, owner: string) {
    t.ownerId == Some(owner)
  }

  /** The resource bonuses of the tiles `owner` holds. */
  function TerritoryYield(tiles: seq<MapTile>, owner: string): Yield {
    if |tiles| == 0 then NoYield
    else
      var t := tiles[0];
      var here := if OwnedBy(t, owner)
                  then Yield(t.resourceBonus.money as real, t.resourceBonus.food as real, t.resourceBonus.oil as real)
                  else NoYield;
      Plus(here, TerritoryYield(tiles[1..], owner))
  }

  lemma {:induction false} NoTerritoryNoYield(tiles: seq<MapTile>, owner: string)
    requires forall i :: 0 <= i < |tiles| ==> !OwnedBy(tiles[i], owner)
    ensures TerritoryYield(tiles, owner) == NoYield
  {
    if |tiles| > 0 {
      NoTerritoryNoYield(tiles[1..], owner);
    }
  }

  /** Tiles owned by other nations contribute nothing: only the owner's tiles count. */
  lemma {:induction false} TerritoryYieldIgnoresOthers(tiles: seq<MapTile>, i: nat, owner: string, t: MapTile)
    requires i < |tiles| && !OwnedBy(tiles[i], owner) && !OwnedBy(t, owner)
    ensures TerritoryYield(tiles[i := t], owner) == TerritoryYield(tiles, owner)
    decreases i
  {
    if i > 0 {
      TerritoryYieldIgnoresOthers(tiles[1..], i - 1, owner, t);
      assert tiles[i := t][1..] == tiles[1..][i - 1 := t];
    }
  }

  // --- Buildings -------------------------------------------------------------------

  /** Output of every building type in `bs` with a positive count, times that count. */
  function BuildingOutput(bs: seq<BuildingType>, counts: BuildingTable): Output {
    if |bs| == 0 then Output(0, 0, 0, 0, 0)
    else
      var n := counts[bs[0]];
      var o := BuildingOf(bs[0]).output;
      var rest := BuildingOutput(bs[1..], counts);
      if n > 0 then
        Output(rest.money + o.money * n, rest.food + o.food * n, rest.oil + o.oil * n,
               rest.energy + o.energy * n, rest.researchPoints + o.researchPoints * n)
      else rest
  }

  lemma {:induction false} NoBuildingsNoOutput(bs: seq<BuildingType>, counts: BuildingTable)
    requires forall b :: b in bs ==> counts[b] <= 0
    ensures BuildingOutput(bs, counts) == Output(0, 0, 0, 0, 0)
  {
    if |bs| > 0 {
      NoBuildingsNoOutput(bs[1..], counts);
    }
  }

  /** Research output over a list of building types: 50 per lab when `bs` lists the lab. */
  lemma {:induction false} ResearchOutputOver(bs: seq<BuildingType>, counts: BuildingTable)
    requires forall i, j :: 0 <= i < j < |bs| ==> bs[i] != bs[j]
    ensures BuildingOutput(bs, counts).researchPoints == (if Lab in bs && counts[Lab] > 0 then 50 * counts[Lab] else 0)
  {
    if |bs| > 0 {
      ResearchOutputOver(bs[1..], counts);
      assert Lab in bs[1..] <==> Lab in bs && bs[0] != Lab;
    }
  }

  // --- Units -----------------------------------------------------------------------

  /** Upkeep of the reserve: every unit type, whatever its count. */
  function ReserveUpkeep(us: seq<UnitId>, reserve: UnitTable): int {
    if |us| == 0 then 0 else UnitOf(us[0]).upkeep * reserve[us[0]] + ReserveUpkeep(us[1..], reserve)
  }

  /** Base upkeep of the units present in a (possibly partial) map. */
  function BaseUpkeep(us: seq<UnitId>, units: map<UnitId, int>): int {
    if |us| == 0 then 0
    else (if us[0] in units then UnitOf(us[0]).upkeep * units[us[0]] else 0) + BaseUpkeep(us[1..], units)
  }

  /** Units not in the infantry category (they burn oil in the field). */
  function MotorisedCount(us: seq<UnitId>, units: map<UnitId, int>): int {
    if |us| == 0 then 0
    else (if us[0] in units && UnitOf(us[0]).category != Infantry then units[us[0]] else 0) + MotorisedCount(us[1..], units)
  }

  /** What one deployed army costs per turn, as a positive amount of each resource. */
  function ArmyUpkeep(us: seq<UnitId>, units: map<UnitId, int>): Yield {
    if |us| == 0 then NoYield
    else
      var u := us[0];
      var here := if u in units
                  then Yield(UnitOf(u).upkeep as real * units[u] as real * 1.5,
                             units[u] as real * 0.2,
                             if UnitOf(u).category != Infantry then units[u] as real * 0.8 else 0.0)
                  else NoYield;
      Plus(here, ArmyUpkeep(us[1..], units))
  }

  /** Deployed units cost 1.5 times their base upkeep in money, 0.2 food each, and 0.8 oil per motorised unit. */
  lemma ArmyUpkeepRates(us: seq<UnitId>, units: map<UnitId, int>)
    ensures ArmyUpkeep(us, units).money == 1.5 * BaseUpkeep(us, units) as real
    ensures ArmyUpkeep(us, units).food == 0.2 * SumUnitsOver(us, units) as real
    ensures ArmyUpkeep(us, units).oil == 0.8 * MotorisedCount(us, units) as real
  {
    ArmyMoneyRate(us, units);
    ArmyFoodRate(us, units);
    ArmyOilRate(us, units);
  }

  lemma {:induction false} ArmyMoneyRate(us: seq<UnitId>, units: map<UnitId, int>)
    ensures ArmyUpkeep(us, units).money == 1.5 * BaseUpkeep(us, units) as real
  {
    if |us| > 0 {
      ArmyMoneyRate(us[1..], units);
      var u := us[0];
      if u in units {
        var up := UnitOf(u).upkeep;
        var n := units[u];
        ProductAsReal(up, n);
        var p := (up * n) as real;
        assert ArmyUpkeep(us, units).money == p * 1.5 + ArmyUpkeep(us[1..], units).money;
        assert BaseUpkeep(us, units) as real == p + BaseUpkeep(us[1..], units) as real;
      }
    }
  }

  lemma {:induction false} ArmyFoodRate(us: seq<UnitId>, units: map<UnitId, int>)
    ensures ArmyUpkeep(us, units).food == 0.2 * SumUnitsOver(us, units) as real
  {
    if |us| > 0 {
      ArmyFoodRate(us[1..], units);
    }
  }

  lemma {:induction false} ArmyOilRate(us: seq<UnitId>, units: map<UnitId, int>)
    ensures ArmyUpkeep(us, units).oil == 0.8 * MotorisedCount(us, units) as real
  {
    if |us| > 0 {
      ArmyOilRate(us[1..], units);
    }
  }

  lemma ProductAsReal(a: int, b: int)
    ensures (a * b) as real == a as real * b as real
  {
  }

  /** Upkeep of every army on a roster; ids with no army behind them are skipped. */
  function RosterUpkeep(roster: seq<string>, armies: map<string, Army>): Yield {
    if |roster| == 0 then NoYield
    else
      var here := if roster[0] in armies then ArmyUpkeep(AllUnits, armies[roster[0]].units) else NoYield;
      Plus(here, RosterUpkeep(roster[1..], armies))
  }

  // --- Total ---------------------------------------------------------------------------

  /** The income record the source returns: population is always 0 and only labs give research points. */
  function Income(c: Country, tiles: seq<MapTile>, armies: map<string, Army>): (inc: Resources)
    ensures inc.population == 0.0
  {
    var land := TerritoryYield(tiles, c.id);
    var built := BuildingOutput(AllBuildings, c.buildings);
    var army := RosterUpkeep(c.armies, armies);
    Resources(
      land.money + built.money as real + c.resources.population * 0.001
        - ReserveUpkeep(AllUnits, c.units) as real - army.money,
      land.food + built.food as real - army.food,
      land.oil + built.oil as real - army.oil,
      built.energy as real,
      0.0,
      built.researchPoints as real)
  }

  /** Labs yield 50 research points each, and nothing else does. */
  lemma IncomeResearchIsLabOutput(c: Country, tiles: seq<MapTile>, armies: map<string, Army>)
    ensures Income(c, tiles, armies).researchPoints == (if c.buildings[Lab] > 0 then 50.0 * c.buildings[Lab] as real else 0.0)
  {
    ResearchOutputOver(AllBuildings, c.buildings);
  }

  lemma {:induction false} NoReserveNoUpkeep(us: seq<UnitId>, reserve: UnitTable)
    requires forall u :: reserve[u] == 0
    ensures ReserveUpkeep(us, reserve) == 0
  {
    if |us| > 0 {
      NoReserveNoUpkeep(us[1..], reserve);
    }
  }

  /** A nation with no land, no buildings, an empty reserve and no armies earns only the
      population tax of one thousandth of its population, and no food or oil. */
  lemma IdleNationIncome(c: Country, tiles: seq<MapTile>, armies: map<string, Army>)
    requires forall i :: 0 <= i < |tiles| ==> !OwnedBy(tiles[i], c.id)
    requires forall b :: c.buildings[b] == 0
    requires forall u :: c.units[u] == 0
    requires c.armies == []
    ensures Income(c, tiles, armies) == Resources(c.resources.population * 0.001, 0.0, 0.0, 0.0, 0.0, 0.0)
  {
    NoTerritoryNoYield(tiles, c.id);
    NoBuildingsNoOutput(AllBuildings, c.buildings);
    NoReserveNoUpkeep(AllUnits, c.units);
  }
}
