/** The static catalogue of gameData.ts: biomes, buildings, units and the technology graph.
    Names, colours, symbols, descriptions and layout coordinates are presentation only. */
module Catalogue {
  import opened Types

  // --- Biomes -------------------------------------------------------------------

  datatype BiomeDef = BiomeDef(defense: int, moveCost: int)

  function BiomeOf(b: Biome): BiomeDef {
    match b
    case Plains => BiomeDef(0, 1)
    case Forest => BiomeDef(20, 2)
    case Desert => BiomeDef(-10, 2)
    case Mountain => BiomeDef(50, 4)
    case Snow => BiomeDef(10, 3)
    case Ocean => BiomeDef(0, 99)
    case City => BiomeDef(40, 1)
  }

  /** Every terrain costs at least one movement point; only the desert weakens its defender. */
  lemma BiomeTableShape(b: Biome)
    ensures BiomeOf(b).moveCost >= 1
    ensures BiomeOf(b).defense < 0 <==> b == Desert
  {
  }

  // --- Buildings ----------------------------------------------------------------

  /** Per-turn output; resources a building does not produce are 0. */
  datatype Output = Output(money: int, food: int, oil: int, energy: int, researchPoints: int)

  datatype BuildingDef = BuildingDef(cost: int, output: Output)

  function BuildingOf(b: BuildingType): BuildingDef {
    match b
    case Farm => BuildingDef(1000, Output(0, 500, 0, 0, 0))
    case Factory => BuildingDef(5000, Output(200, 0, 0, 0, 0))
    case OilWell => BuildingDef(8000, Output(0, 0, 100, 0, 0))
    case PowerPlant => BuildingDef(15000, Output(0, 0, 0, 1000, 0))
    case Lab => BuildingDef(10000, Output(0, 0, 0, 0, 50))
    case Barracks => BuildingDef(3000, Output(0, 0, 0, 0, 0))
    case Bunker => BuildingDef(5000, Output(0, 0, 0, 0, 0))
  }

  /** The lab is the only source of research points in the building table. */
  lemma OnlyLabsResearch(b: BuildingType)
    ensures BuildingOf(b).output.researchPoints != 0 <==> b == Lab
    ensures BuildingOf(Lab).output.researchPoints == 50
  {
  }

  // --- Units ----------------------------------------------------------------------

  datatype UnitDef = UnitDef(
    category: UnitCategory,
    cost: int,
    upkeep: int,
    attack: int,
    defense: int,
    movement: int,
    techRequired: Option<string>)

  function UnitOf(u: UnitId): (d: UnitDef)
    ensures d.cost > 0 && d.upkeep > 0 && d.attack >= 0 && d.defense >= 0 && d.movement >= 1
  {
    match u
    case Soldier => UnitDef(Infantry, 100, 10, 5, 10, 1, None)
    case Tank => UnitDef(Armor, 1500, 100, 60, 40, 2, None)
    case Artillery => UnitDef(Armor, 2000, 150, 80, 10, 1, None)
    case Helicopter => UnitDef(Air, 5000, 300, 90, 30, 4, Some("adv_aviation"))
    case Jet => UnitDef(Air, 12000, 500, 150, 80, 10, Some("adv_aviation"))
    case Bomber => UnitDef(Air, 25000, 1000, 400, 50, 8, Some("stealth_tech"))
    case Destroyer => UnitDef(Navy, 25000, 1000, 200, 200, 3, None)
    case Sub => UnitDef(Navy, 30000, 1200, 250, 100, 3, Some("naval_dominance"))
    case Carrier => UnitDef(Navy, 150000, 5000, 500, 500, 2, Some("naval_dominance"))
    case Sam => UnitDef(Defense, 10000, 400, 100, 200, 1, Some("missile_tech"))
    case Nuke => UnitDef(Missile, 1000000, 5000, 9999, 0, 100, Some("nuclear_tech"))
  }

  /** `terrainBonuses[biome]` when the unit declares one for that biome. */
  function TerrainBonus(u: UnitId, b: Biome): Option<real> {
    match (u, b)
    case (Soldier, Forest) => Some(1.5)
    case (Soldier, City) => Some(1.5)
    case (Tank, Plains) => Some(1.2)
    case (Tank, Desert) => Some(1.2)
    case (Tank, Mountain) => Some(0.5)
    case _ => None
  }

  /** The factor applied to a unit's power: a present, non-zero terrain bonus, else 1. */
  function TerrainMultiplier(u: UnitId, b: Biome): (m: real)
    ensures m > 0.0
    ensures TerrainBonus(u, b).Some? ==> m == TerrainBonus(u, b).value
    ensures TerrainBonus(u, b).None? ==> m == 1.0
  {
    match TerrainBonus(u, b)
    case Some(x) => if x != 0.0 then x else 1.0
    case None => 1.0
  }

  // --- Technology ---------------------------------------------------------------------

  /** Resource multipliers and combat bonuses are declared in the source but read by no engine code. */
  datatype TechDef = TechDef(cost: int, prerequisites: seq<string>, unlockUnits: seq<UnitId>)

  const TechTree: map<string, TechDef> := map[
    "basic_eco" := TechDef(500, [], []),
    "ind_automation" := TechDef(1500, ["basic_eco"], []),
    "adv_farming" := TechDef(1000, ["basic_eco"], []),
    "adv_aviation" := TechDef(2000, ["ind_automation"], [Jet, Helicopter]),
    "missile_tech" := TechDef(3000, ["ind_automation"], [Sam]),
    "stealth_tech" := TechDef(8000, ["adv_aviation"], [Bomber]),
    "naval_dominance" := TechDef(5000, ["ind_automation"], [Carrier, Sub]),
    "ai_research" := TechDef(10000, ["missile_tech", "naval_dominance"], []),
    "nuclear_tech" := TechDef(50000, ["ai_research", "stealth_tech"], [Nuke])
  ]

  /** Depth of a technology in the prerequisite graph. */
  function Tier(t: string): nat {
    if t == "basic_eco" then 0
    else if t == "ind_automation" || t == "adv_farming" then 1
    else if t == "adv_aviation" || t == "missile_tech" || t == "naval_dominance" then 2
    else if t == "stealth_tech" || t == "ai_research" then 3
    else 4
  }

  /** `p` must be researched before `t` can be selected. */
  predicate PrerequisiteOf(p: string, t: string) {
    t in TechTree && p in TechTree[t].prerequisites
  }

  /** Every prerequisite names a technology of the tree, one tier lower or more. */
  lemma PrerequisitesAreEarlierTechs()
    ensures forall p, t :: PrerequisiteOf(p, t) ==> p in TechTree && Tier(p) < Tier(t)
  {
  }

  /** A chain of prerequisite links, each element a prerequisite of the next. */
  predicate PrerequisiteChain(chain: seq<string>) {
    forall i :: 0 <= i < |chain| - 1 ==> PrerequisiteOf(chain[i], chain[i + 1])
  }

  lemma {:induction false} ChainClimbsTiers(chain: seq<string>)
    requires |chain| >= 2 && PrerequisiteChain(chain)
    ensures Tier(chain[0]) < Tier(chain[|chain| - 1])
    decreases |chain|
  {
    PrerequisitesAreEarlierTechs();
    assert PrerequisiteOf(chain[0], chain[1]);
    if |chain| > 2 {
      var rest := chain[1..];
      assert PrerequisiteChain(rest) by {
        forall i | 0 <= i < |rest| - 1
          ensures PrerequisiteOf(rest[i], rest[i + 1])
        {
          assert PrerequisiteOf(chain[i + 1], chain[i + 2]);
        }
      }
      ChainClimbsTiers(rest);
    }
  }

  /** The prerequisite graph has no cycle: no chain returns to its start. */
  lemma PrerequisitesAcyclic(chain: seq<string>)
    requires |chain| >= 2 && PrerequisiteChain(chain)
    ensures chain[0] != chain[|chain| - 1]
  {
    ChainClimbsTiers(chain);
  }

  /** A unit requires technology t exactly when t lists it among the units it unlocks. */
  lemma UnitTechMatchesUnlocks(u: UnitId, t: string)
    ensures UnitOf(u).techRequired == Some(t) <==> (t in TechTree && u in TechTree[t].unlockUnits)
  {
  }

  /** Every technology a unit requires is in the tree. */
  lemma RequiredTechsExist(u: UnitId)
    ensures UnitOf(u).techRequired.Some? ==> UnitOf(u).techRequired.value in TechTree
  {
  }
}
