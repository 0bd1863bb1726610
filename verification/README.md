# Hex-map grand strategy: engine, world generation and two advisory screens

This project models the rules core of a turn-based grand-strategy game. The game is played on a hexagonal map by ten nations.

- **World generation.** A disk of hex tiles is laid out, each with a terrain (biome). Ten nations are placed at fixed capitals, and each annexes the land within two steps that nobody holds yet. Every nation starts with the same buildings and reserve units. Its treasury scales with its population. Every pair of nations starts neutral.
- **The reducer.** Every player command is a pure step from one game state to the next:
  - ending the turn: income, research, the calendar, and movement refills;
  - building and recruiting;
  - hiring a general;
  - forming an army from the reserve;
  - moving an army, which fights a battle when the target tile belongs to another nation;
  - the selection and dialog commands.
- **Two screens.** The research tree decides which technology node can be clicked and how it is drawn. The diplomacy panel decides how much of a foreign nation's figures the player's intelligence level reveals, and whether it offers "declare war" or "attack".

The modules follow the program's files:

| module | file | contents |
|---|---|---|
| `Types` | types.dfy | records, enumerations and commands; `Outcome`/`Fault` for a command the program cannot complete |
| `Hex` | hex.dfy | cube distance, neighbours, tile ids `"q,r"` |
| `Catalogue` | catalogue.dfy | the biome, building, unit and technology tables |
| `Combat` | combat.dfy | battle power, loss ratios, losses, verdict |
| `Economy` | economy.dfy | a nation's income per turn |
| `Engine` | engine.dfy | the reducer, command by command |
| `EngineProps` | engine_props.dfy | what the commands promise, stated through `Reduce` |
| `Invariants` | invariants.dfy | the bookkeeping invariant every command keeps |
| `WorldGen` | worldgen.dfy | map generation and the opening position |
| `TechView` | techtree.dfy | research-tree node states and clicks |
| `Intel` | diplomacy.dfy | observed values and the war button |

**Modelling choices**
- Randomness and clock ids are inputs.
  - The reducer takes a `Draws` record: the fresh id taken from the clock, a recruited general's stats, the pick of the defending army, and the per-unit-type loss rolls.
  - `Engine.ValidDraws` confines each draw to the range the program can produce.
  - Map generation takes the biome noise as a function of the coordinates.
- Tiles are kept as a sequence in generation order. A tile id is looked up as the first tile carrying it.
- A missing country, general or tile, and the CREATE_ARMY throw, become `Err` results.
- Resources are exact reals. Unit and building counts are unbounded integers.
- JavaScript truthiness is kept where the program relies on it: an empty owner id counts as unowned, and an empty research id counts as no research.

**Behaviour worth noting**
- A move of distance 0, onto the army's own tile, is accepted; only a distance above 1 is refused (gameEngine.ts:255).
- The movement-cost check comes before the hostility check, so it applies to attacks too (gameEngine.ts:257-261).
- A repelled attacker stays where it was with no movement left; only a victorious one moves onto the tile (gameEngine.ts:286-290).
- Recruiting does not check the unit's required technology (gameEngine.ts:353-359, `EngineProps.RecruitIgnoresTechnology`).
- CREATE_ARMY assigns a general whatever its status, dead generals included (gameEngine.ts:212-241, `EngineProps.AssignmentIgnoresStatus`).
- START_RESEARCH, SELECT_COUNTRY, DISMISS_MESSAGE, DIPLOMACY_ACTION and SEND_SPY leave the state unchanged (gameEngine.ts:334-367).
  - So no relation ever leaves `neutral`, and the attack button never appears in a reachable game (`Intel.PeaceIsKept`).
- The attacker's loss ratio is capped at 0.5, the defender's at 1.0. A lone attacking unit is still always lost whenever the roll is positive (gameEngine.ts:135, `Combat.LoneUnitFalls`).
- Research is credited 50 points per lab twice: once through the income and once directly (gameEngine.ts:40 and 192, `EngineProps.ResearchGainPerLab`).

## Model

| member | source | states |
|---|---|---|
| Hex.Distance | gameEngine.ts:13-15 | the distance is half the sum of the three cube-coordinate differences, and is a whole number |
| Hex.DistanceToSelf | gameData.ts:313-315 | a tile is at distance 0 from itself |
| Hex.DistanceSymmetric | gameEngine.ts:13-15 | distance does not depend on the order of the two tiles |
| Hex.DistanceZeroOnlyOnSelf | gameEngine.ts:13-15 | distance 0 holds exactly for the same coordinates |
| Hex.UnitDistanceIsNeighbour | gameEngine.ts:13-15 | distance 1 holds exactly for the six hex neighbours |
| Hex.IntToStringInjective | gameData.ts:326 | distinct integers print differently in a tile id |
| Hex.TileIdInjective | gameData.ts:326 | the id `"q,r"` determines the coordinates, so no two tiles share an id |
| Catalogue.BiomeTableShape | gameData.ts:14-22 | every biome costs at least one movement point; only desert has a negative defence |
| Catalogue.OnlyLabsResearch | gameData.ts:25-83 | labs, and only labs, yield research points, 50 each |
| Catalogue.UnitOf | gameData.ts:85-206 | every unit type has positive cost and upkeep, non-negative attack and defence, and movement at least 1 |
| Catalogue.TerrainMultiplier | gameEngine.ts:97-99 | the unit's bonus on that biome when the table has one, 1 otherwise; always positive |
| Catalogue.PrerequisitesAreEarlierTechs | gameData.ts:208-289 | every prerequisite is a known technology of a strictly lower tier |
| Catalogue.ChainClimbsTiers | gameData.ts:208-289 | along a prerequisite chain the tier strictly rises |
| Catalogue.PrerequisitesAcyclic | gameData.ts:208-289 | no technology is, through a chain, its own prerequisite |
| Catalogue.UnitTechMatchesUnlocks | gameData.ts:85-289 | a unit requires technology t exactly when t lists the unit among those it unlocks |
| Catalogue.RequiredTechsExist | gameData.ts:85-206 | every technology a unit requires is in the tree |
| Combat.Clamp | gameEngine.ts:10 | the result lies in [lo, hi], equals x inside the interval, and is the nearer bound outside |
| Combat.Ceil | gameEngine.ts:141 | the least integer at or above x |
| Combat.UnitPowerNonNegative | gameEngine.ts:92-104 | with non-negative counts and factor, an army's summed power is non-negative |
| Combat.PowerSplits | gameEngine.ts:110-121 | an army's power is additive: two armies with no unit type in common have, together, the sum of their powers |
| Combat.PowerOfOneKind | gameEngine.ts:110-121 | an army of a single unit type has exactly that type's stat × count × terrain × general factor as its power |
| Combat.DefensePower | gameEngine.ts:109-125 | without a defending army the defence is the tile bonus times 10 plus the militia's 50 |
| Combat.MarginFavoursDefender | gameEngine.ts:156 | the attacker needs more than 110% of the defence: 110 against 100 loses, 111 wins |
| Combat.PrevailingNeedsSurplus | gameEngine.ts:156-164 | a winning attacker has at least the defender's power; exactly 1.1 times the defence is a defeat |
| Combat.AttackerLossRatio | gameEngine.ts:135 | the attacker's loss ratio lies between 5% and 50% |
| Combat.DefenderLossRatio | gameEngine.ts:136 | the defender's loss ratio lies between 5% and 100% |
| Combat.Loss | gameEngine.ts:140-141 | a loss is between 0 and the count, and at least one unit when the count, the ratio and the roll are positive |
| Combat.Losses | gameEngine.ts:139-154 | there is one loss per unit type of the army, each within the type's count |
| Combat.Subtract | gameEngine.ts:142 | survivors plus losses give back the original count of each type |
| Combat.Resolve | gameEngine.ts:70-167 | the attacker wins iff its power exceeds 1.1 times the defence, which decides the winner and loser ids; both sides lose per type within their counts, survivors are counts minus losses, the log has five lines, a garrison loses nothing |
| Combat.LoneUnitFalls | gameEngine.ts:138-144 | an attacking type of one unit is always lost when the roll is positive |
| Combat.DesertDefenceCanReachMinusOne | gameEngine.ts:109-136 | a desert defence of three soldiers and two helicopters under a strategy-2 general totals exactly -1, so the defender's loss ratio divides by zero |
| Economy.NoTerritoryNoYield | gameEngine.ts:23-29 | a nation without tiles earns no tile yield |
| Economy.TerritoryYieldIgnoresOthers | gameEngine.ts:23-29 | changing a tile the nation neither held nor gains leaves its yield unchanged |
| Economy.NoBuildingsNoOutput | gameEngine.ts:32-42 | a building type with count zero or below produces nothing |
| Economy.ResearchOutputOver | gameEngine.ts:32-42 | building research income is 50 per lab when labs are positive, 0 otherwise |
| Economy.ArmyUpkeepRates | gameEngine.ts:53-63 | deployed units cost 1.5 times their base upkeep in money, 0.2 food per unit, and 0.8 oil per non-infantry unit |
| Economy.ArmyMoneyRate | gameEngine.ts:58 | deployed units cost 1.5 times their base upkeep in money |
| Economy.ArmyFoodRate | gameEngine.ts:59 | every deployed unit eats 0.2 food |
| Economy.ArmyOilRate | gameEngine.ts:60 | every deployed non-infantry unit burns 0.8 oil |
| Economy.Income | gameEngine.ts:18-66 | income never includes population growth |
| Economy.IncomeResearchIsLabOutput | gameEngine.ts:32-42 | income research points are 50 per lab when labs are positive, else 0 |
| Economy.NoReserveNoUpkeep | gameEngine.ts:48-50 | an empty reserve costs nothing |
| Economy.IdleNationIncome | gameEngine.ts:18-66 | a nation without land, buildings, reserves or armies earns exactly a thousandth of its population in money, and nothing else |
| Engine.FindTile | gameEngine.ts:251-252 | returns the first tile carrying the id, or none exactly when no tile carries it |
| Engine.NextDate | gameEngine.ts:178-182 | the turn advances by one; the month advances in 1..12 and rolls over to 1 after 12, when the year advances |
| Engine.AdvanceCountry | gameEngine.ts:185-202 | money, food and oil grow by the income; completed research is appended and cleared; unfinished research accrues the gain; no research leaves progress alone; nothing else changes |
| Engine.AdvanceAll | gameEngine.ts:185-202 | every nation, and only the nations, advance |
| Engine.Replenish | gameEngine.ts:205-208 | every army's movement is refilled to its maximum, with nothing else changed |
| Engine.Announce | gameEngine.ts:199 | the log keeps its old messages as a prefix and gains n copies of the unlock message |
| Engine.AdvanceTurn | gameEngine.ts:176-210 | the calendar steps, each nation advances, armies refill, one message per player nation that completes research, and relations and terrain are untouched |
| Engine.Build | gameEngine.ts:346-352 | a missing nation is an error; an unaffordable order leaves the game as it was; an affordable one lowers the nation's money by exactly cost times amount and raises that building type's count by exactly the amount, while its other building types, its reserves, its other resources and fields, every other nation and the rest of the game stay unchanged |
| Engine.Recruit | gameEngine.ts:353-359 | a missing nation is an error; an unaffordable order leaves the game as it was; an affordable one lowers the nation's money by exactly cost times amount and raises that unit type's reserve by exactly the amount, while its other unit types, its buildings, its other resources and fields, every other nation and the rest of the game stay unchanged |
| Engine.HireGeneral | gameEngine.ts:303-328 | a missing nation is an error; below 5000 nothing changes; otherwise 5000 is paid and a level-1 available general is filed and rostered |
| Engine.ArmyMovement | gameEngine.ts:234-235 | movement is 2 plus logistics divided by 5, rounded down |
| Engine.Debit | gameEngine.ts:218-221 | the reserve loses exactly the requested counts, and other types are untouched |
| Engine.FormArmy | gameEngine.ts:212-244 | throws iff some request exceeds the reserve; a missing nation or general is an error; on success the reserve is debited, the army is filed and rostered with full movement, and the general is assigned |
| Engine.MarchTo | gameEngine.ts:294-298 | the army moves onto the tile paying its cost; an unheld tile is claimed and a held one keeps its owner; nothing else changes |
| Engine.Opponent | gameEngine.ts:263-264 | a defender is engaged exactly when the pick is a truthy army id |
| Engine.DefenderOf | gameEngine.ts:264 | the defending army's units enter the battle iff there is an opponent |
| Engine.Disband | gameEngine.ts:275-276 | the army leaves the world and its owner's roster, and nothing else changes |
| Engine.BuryFallen | gameEngine.ts:273-278 | a surviving attacker changes nothing; a wiped-out one is removed from the world and its roster, and its general dies (an error when the general is missing) |
| Engine.Engage | gameEngine.ts:267-270 | the battle's survivors replace both armies' units, the result is recorded and the battle dialog opens |
| Engine.Conquer | gameEngine.ts:280-286 | the defending army is removed and the tile passes to the attacker |
| Engine.OccupyOrHold | gameEngine.ts:280-291 | the tile changes hands only on victory; a surviving attacker halts with no movement and moves only on victory; a beaten defender disappears |
| Engine.Aftermath | gameEngine.ts:272-291 | after a battle, only the contested tile changes and only to the attacker; a surviving attacker has units left and halts; a fallen one's general is dead; the defender survives iff the attack failed; bystanders are untouched |
| Engine.Fight | gameEngine.ts:261-270 | a missing owner is an error; a defence of -1 is an arithmetic error; otherwise the verdict is the power comparison, and only the two armies' units and the dialog change |
| Engine.Assault | gameEngine.ts:261-291 | after an attack the dialog shows the result; the tile passes to the attacker iff it won; the attacker, if alive, halts; the defender survives iff the attack failed |
| Engine.Move | gameEngine.ts:246-301 | a refused move is a no-op; an unknown tile is an error; enemy land means battle; otherwise the army marches |
| Engine.Interact | gameEngine.ts:330-365 | selection and dialog commands change only the selection and dialog fields, as each command says |
| Engine.Reduce | gameEngine.ts:171-371 | pass-through commands return the state; only the five acting commands can fail; no command touches relations or terrain or shortens the log; only NEXT_TURN moves the calendar |
| EngineProps.CalendarArithmetic | gameEngine.ts:178-182 | n turns from a valid date move the month n places round the year and carry into the year |
| EngineProps.TwelveTurnsMakeAYear | gameEngine.ts:178-182 | twelve turns bring back the same month of the next year |
| EngineProps.NextTurnCalendar | gameEngine.ts:176-182 | NEXT_TURN keeps the month in 1..12, and the year advances exactly when December rolls over |
| EngineProps.NextTurnCreditsOnlyMoneyFoodOil | gameEngine.ts:185-189 | a turn credits money, food and oil by the income, and leaves energy, population, stockpiled research, buildings, reserve and roster alone |
| EngineProps.IdleNationEarnsPopulationTax | gameEngine.ts:45 | a nation with nothing earns a thousandth of its population per turn in money, and no food or oil |
| EngineProps.ResearchGainPerLab | gameEngine.ts:192 | research accrues 100 per lab per turn, because labs are counted twice |
| EngineProps.NextTurnResearch | gameEngine.ts:191-208 | research completes, accrues or stays idle as the nation's state says, and every army is refilled |
| EngineProps.AtMostOneUnlockMessage | gameEngine.ts:197-199 | with a single player nation a turn announces at most one unlock |
| EngineProps.BuildConservesValue | gameEngine.ts:346-352 | money lost equals the price of the buildings gained, and the order is filled iff affordable |
| EngineProps.BuildPaysItsPrice | gameEngine.ts:346-352 | the same for the building step alone |
| EngineProps.RecruitConservesValue | gameEngine.ts:353-359 | money lost equals the price of the units gained, and the order is filled iff affordable |
| EngineProps.RecruitPaysItsPrice | gameEngine.ts:353-359 | the same for the recruiting step alone |
| EngineProps.RecruitIgnoresTechnology | gameEngine.ts:353-359 | a nation without nuclear technology can still buy an affordable nuke |
| EngineProps.HiredGeneral | gameEngine.ts:303-328 | a hired general costs 5000 and starts available at level 1 with every stat in 1..5; a poor nation gets nothing |
| EngineProps.CreateArmyThrowsIffOverdrawn | gameEngine.ts:218-224 | CREATE_ARMY fails for lack of reserves exactly when some requested count exceeds the reserve |
| EngineProps.CreateArmyConservesUnits | gameEngine.ts:212-244 | reserve plus army equals the old reserve per type; the army is the nation's, at the place, with the general, and with full movement from logistics; it is rostered and the general assigned |
| EngineProps.AssignmentIgnoresStatus | gameEngine.ts:212-244 | a dead general can be assigned to a new army |
| EngineProps.RefusedMoveChangesNothing | gameEngine.ts:249-258 | a missing or exhausted army, an out-of-reach target, or an unaffordable cost leaves the state unchanged |
| EngineProps.PeacefulMove | gameEngine.ts:292-299 | onto friendly or empty land the army arrives with its units, pays the cost without going negative, and claims the tile if unheld; nations and generals are unchanged |
| EngineProps.MarchArrives | gameEngine.ts:292-299 | the march alone: arrival, cost, claim of an unheld tile |
| EngineProps.MoveOffTheMapFails | gameEngine.ts:251-253 | a move to an unknown tile by an army that can move is an error |
| EngineProps.AttackEndsTheTurn | gameEngine.ts:261-291 | after an attack the surviving attacker has no movement and stands on the tile iff it was taken; the tile is taken iff the attacker won; a fallen attacker's general is dead |
| EngineProps.SelectTileIdempotent | gameEngine.ts:330 | selecting a tile clears the army selection, and selecting it again changes nothing |
| EngineProps.GeneralStatusTransitions | gameEngine.ts:212-328 | no command forgets a general; a status changes only to assigned (through CREATE_ARMY naming it) or to dead (in MOVE_ARMY) |
| EngineProps.MoveStatusStep | gameEngine.ts:246-301 | the status rule for MOVE_ARMY |
| EngineProps.StaffingStatusStep | gameEngine.ts:212-244 | the status rule for CREATE_ARMY and RECRUIT_GENERAL |
| EngineProps.QuietStatusStep | gameEngine.ts:171-371 | every other command leaves the generals alone |
| Invariants.SameBooksKeepConsistency | types.ts:140-203 | a state with the same nations, armies, generals, rosters and owners as a consistent one is consistent |
| Invariants.DisbandKeepsConsistency | gameEngine.ts:275-276 | disbanding an army keeps the books |
| Invariants.BuryKeepsConsistency | gameEngine.ts:277 | marking a general dead keeps the books |
| Invariants.ReviseArmyKeepsConsistency | gameEngine.ts:141-151 | replacing an army by one with the same id and owner keeps the books |
| Invariants.ReviseCountryKeepsConsistency | gameEngine.ts:185-202 | replacing a nation by one with the same id and rosters keeps the books |
| Invariants.ClaimKeepsConsistency | gameEngine.ts:286 | handing a tile to an existing nation keeps the books |
| Invariants.AdvanceTurnKeepsConsistency | gameEngine.ts:176-210 | NEXT_TURN keeps the books |
| Invariants.EnlistKeepsRostersSound | gameEngine.ts:239-241 | filing a new army keeps every roster entry pointing at an army of its nation |
| Invariants.EnlistKeepsRostersComplete | gameEngine.ts:239-241 | filing a new army keeps every army on its nation's roster |
| Invariants.EnlistKeepsConsistency | gameEngine.ts:239-241 | filing a new army with a fresh id keeps the books |
| Invariants.FormArmyKeepsConsistency | gameEngine.ts:212-244 | CREATE_ARMY with a fresh id keeps the books |
| Invariants.HireGeneralKeepsConsistency | gameEngine.ts:303-328 | RECRUIT_GENERAL keeps the books |
| Invariants.MarchKeepsConsistency | gameEngine.ts:292-299 | a march keeps the books |
| Invariants.MarchOntoFreeTile | gameEngine.ts:295-297 | onto unheld land a march relocates the army and claims the tile |
| Invariants.MarchOnHeldTile | gameEngine.ts:295-296 | onto held land a march only relocates the army |
| Invariants.BuryFallenKeepsConsistency | gameEngine.ts:273-278 | removing a wiped-out attacker keeps the books |
| Invariants.ConquerKeepsConsistency | gameEngine.ts:280-286 | conquest keeps the books |
| Invariants.OccupyOrHoldKeepsConsistency | gameEngine.ts:280-291 | taking the tile and halting the attacker keeps the books |
| Invariants.VictoryKeepsConsistency | gameEngine.ts:280-289 | a victorious settlement keeps the books |
| Invariants.ConquestKeepsConsistency | gameEngine.ts:280-286 | conquest keeps the books even when the defending army is already gone |
| Invariants.WithoutAbsent | gameEngine.ts:276 | filtering an id that names no army leaves a consistent roster as it is |
| Invariants.BurialKeepsConsistency | gameEngine.ts:272-278 | after the burial the books hold, the map is unchanged, and a surviving attacker is unchanged |
| Invariants.AftermathKeepsConsistency | gameEngine.ts:272-291 | the battle's aftermath keeps the books |
| Invariants.FightKeepsConsistency | gameEngine.ts:261-270 | recording the battle keeps the books |
| Invariants.AssaultKeepsConsistency | gameEngine.ts:261-291 | an attack keeps the books |
| Invariants.MoveKeepsConsistency | gameEngine.ts:246-301 | MOVE_ARMY keeps the books |
| Invariants.BuildKeepsConsistency | gameEngine.ts:346-352 | BUILD_BUILDING keeps the books |
| Invariants.RecruitKeepsConsistency | gameEngine.ts:353-359 | RECRUIT_UNIT keeps the books |
| Invariants.PurchaseStepKeepsConsistency | gameEngine.ts:176-359 | NEXT_TURN, BUILD_BUILDING and RECRUIT_UNIT keep the books |
| Invariants.StaffingStepKeepsConsistency | gameEngine.ts:212-328 | CREATE_ARMY with a fresh id, and RECRUIT_GENERAL, keep the books |
| Invariants.MoveStepKeepsConsistency | gameEngine.ts:246-301 | MOVE_ARMY keeps the books |
| Invariants.InteractKeepsConsistency | gameEngine.ts:330-365 | selection and dialog commands keep the books |
| Invariants.InterfaceStepKeepsConsistency | gameEngine.ts:330-366 | selection, dialog and pass-through commands succeed and keep the books |
| Invariants.ReduceKeepsConsistency | gameEngine.ts:171-371 | every successful command keeps the books, given a fresh id for a new army |
| WorldGen.DiskRows | gameData.ts:321-324 | the row bounds of the generation loops enumerate exactly the hexes within the radius |
| WorldGen.GenerateRow | gameData.ts:323-352 | a row holds the generated tiles of one q, with r rising through its bounds |
| WorldGen.AppendRowOrdered | gameData.ts:321-324 | appending the next row keeps the tiles generated, inside, and in (q, r) order |
| WorldGen.AppendRowCovers | gameData.ts:321-324 | after the next row, every hex of the rows so far has a tile |
| WorldGen.GenerateHexMap | gameData.ts:317-356 | the map is the disk of the radius: every hex within it has exactly one tile, each tile is the one generated for its coordinates, and the tiles come in (q, r) order |
| WorldGen.NewTileShape | gameData.ts:326-352 | a fresh tile has the id "q,r" and no owner; the centre is plains; noise never yields snow or city; money 5, food 10 only on plains, oil 20 only in desert; defence and cost come from the biome |
| WorldGen.CountryIdInjective | gameData.ts:375 | distinct nations get distinct ids |
| WorldGen.CountryIdsDiffer | gameData.ts:375 | nations with different indices have different ids |
| WorldGen.CapitalsDistinct | gameData.ts:366-370 | no two nations share a capital |
| WorldGen.CapitalsInside | gameData.ts:366-370 | every capital lies within 6 steps of the centre |
| WorldGen.UnclaimedIffOutOfRange | gameData.ts:389-394 | a tile stays unowned exactly when it is more than two steps from every capital |
| WorldGen.CapitalOwnedByItsNation | gameData.ts:381-387 | a capital belongs to its own nation |
| WorldGen.LandOwnedByFirstInRange | gameData.ts:389-394 | other land goes to the first nation whose capital is within two steps |
| WorldGen.CapitalFound | gameData.ts:380-381 | each capital's id is found on the generated map at its coordinates |
| WorldGen.ClaimAndAnnexAt | gameData.ts:379-394 | one nation's claim and annexation transform each tile as the closed-form rule says |
| WorldGen.SettleMatchesRule | gameData.ts:372-394 | settling the ten nations in order gives each tile its closed-form owner and terrain |
| WorldGen.RuleOwnerIds | gameData.ts:375 | every owner the settlement assigns is one of the nation ids |
| WorldGen.GeneratedMapIsFresh | gameData.ts:317-356 | every generated tile is unowned and not a city, each coordinate appears once, and every capital is present |
| WorldGen.CountryIdsDistinct | gameData.ts:375 | the nation ids c_0 … c_9 are pairwise distinct |
| WorldGen.OpeningIntel | gameData.ts:429-441 | a nation starts with intelligence 10 on every other nation and none on itself |
| WorldGen.KeyedEntries | gameData.ts:396 | filing nations by id keeps each under its own id, and files nothing else |
| WorldGen.SettleKeepsCoords | gameData.ts:379-394 | settlement never moves a tile |
| WorldGen.SameCoordsCover | gameData.ts:379-394 | settlement keeps the map covering the disk |
| WorldGen.SettledMapInside | gameData.ts:379-394 | the settled map stays inside the disk, with distinct coordinates |
| WorldGen.SettledMapContent | gameData.ts:358-394 | each settled tile is the generated tile for its coordinates, as the nations left it |
| WorldGen.GenerateInitialState | gameData.ts:358-469 | the opening state covers the disk with one tile per hex; each tile is its generated tile, settled; nations, relations and log are as listed; the bookkeeping invariant holds |
| WorldGen.SettledTileOwner | gameData.ts:379-394 | in closed form: unowned iff out of every capital's range; a capital is a city of defence 50 owned by its nation; other land goes to the first nation in range; position, yield and cost never change |
| WorldGen.PlayerIdIsNation | gameData.ts:448 | the player id names a nation exactly when the index is one of the ten |
| WorldGen.NationAt | gameData.ts:396-425 | nation i is filed under c_i with its opening record |
| WorldGen.NationEntry | gameData.ts:396-425 | every filed nation is one of the ten opening records |
| WorldGen.NationsAtStart | gameData.ts:396-441 | the nations are exactly c_0 … c_9; each starts without armies, generals, research or progress, and with intelligence 10 on every other nation |
| WorldGen.NewCountryFresh | gameData.ts:396-425 | each opening record is fresh |
| WorldGen.NationKeys | gameData.ts:372-396 | the nation table's keys are exactly the ten ids |
| WorldGen.OnePlayer | gameData.ts:374 | at most one nation is the player's; it is the one the player id names when the index is in range, and none otherwise |
| WorldGen.OpeningResources | gameData.ts:377-410 | money, food, oil and energy are 10000, 5000, 1000 and 2000 per million of the listed population figure, each rounded down, with the scale floored at a tenth of a million (1000, 500, 100 and 200 for small nations); the population itself is that figure times 1000; research starts at 0 |
| WorldGen.OpeningReserve | gameData.ts:414-416 | 65 reserve units: 50 soldiers, 10 tanks, 5 artillery |
| WorldGen.RelationsAtStart | gameData.ts:428-442 | every ordered pair of distinct nations, and only those, starts neutral at opinion 0 with no trade deal; the table is symmetric |
| WorldGen.InitialStateConsistent | gameData.ts:444-468 | the opening state satisfies the bookkeeping invariant |
| WorldGen.SettledOwnersAreNations | gameData.ts:379-394 | every settled owner is one of the ten nations |
| WorldGen.ClaimCapital | gameData.ts:380-387 | a nation's claim keeps the map's length and every tile's id and position, changes only the tile at its capital's id, leaves the map alone when that id is absent, and otherwise makes that tile a city of defence 50 owned by the nation |
| WorldGen.Annex | gameData.ts:389-394 | annexation changes nothing but owners; owned tiles and tiles more than two steps from the capital keep their owner; every tile within two steps ends up owned |
| WorldGen.Settle | gameData.ts:372-394 | settling keeps the map's length; its per-tile meaning is stated in `WorldGen.ClaimAndAnnexAt` and `WorldGen.SettleMatchesRule`, and positions are kept by `WorldGen.SettleKeepsCoords` |
| TechView.AllResearched | TechTree.tsx:61 | true exactly when every prerequisite has been researched |
| TechView.NodeStateOf | TechTree.tsx:76-79 | a node is done iff researched; in progress iff not done and being researched; open iff neither and every prerequisite is done; locked iff neither and some prerequisite is missing |
| TechView.Click | TechTree.tsx:81-84 | a click requests research on the node exactly when it is not researched and all its prerequisites are |
| TechView.ClickableNodes | TechTree.tsx:76-84 | the clickable nodes are the open ones, plus the one in progress when its prerequisites are done; done and locked nodes never request research |
| TechView.NodeStateMonotone | TechTree.tsx:60-79 | researching more never locks a node again nor undoes one: availability is kept, done stays done, an open node stays open or becomes done (never in progress while the current research is unchanged), and a locked node was locked before |
| TechView.RootsAlwaysAvailable | TechTree.tsx:61 | a technology without prerequisites is always available, and clickable until researched |
| TechView.FreshNationCanStartOnlyBasicEconomy | TechTree.tsx:81-84 | with nothing researched the only clickable technology is basic_eco |
| Intel.IntelLevel | DiplomacyView.tsx:26 | the recorded intelligence on the target, or 0 when there is none |
| Intel.Observe | DiplomacyView.tsx:29-45 | intelligence from 90 shows the value, 50-89 a range, 20-49 a vague word, below 20 nothing |
| Intel.SpreadBounds | DiplomacyView.tsx:31-36 | a non-negative value lies in its ±20% range; from -5 down the range is inverted and excludes the value |
| Intel.SpreadNearZero | DiplomacyView.tsx:31-36 | between -5 and 0 it depends on the rounding: -1 reads -1..-1 and is covered, -2.5 reads the crossed range -2..-3 and is not |
| Intel.ReportIsTruthful | DiplomacyView.tsx:29-45 | the panel never misleads about a non-negative value, and the exact value and vague words are truthful for every value |
| Intel.MoreIntelShowsMore | DiplomacyView.tsx:29-45 | more intelligence never reveals less |
| Intel.OpeningIntelHidesEverything | DiplomacyView.tsx:26-44 | with the opening intelligence of 10, every figure of every nation reads "???" |
| Intel.ReportOn | DiplomacyView.tsx:90-102 | each figure (treasury, soldiers plus five per tank, population) is reported truthfully when it is non-negative or intelligence is full; at 90 or more every figure is shown exactly; below 20 the whole report is hidden |
| Intel.WarButtonFor | DiplomacyView.tsx:126-134 | the attack button is shown exactly when the relation is at war |
| Intel.NoWarAtStart | gameData.ts:428-442 | no relation starts at war |
| Intel.PeaceIsKept | gameEngine.ts:341-366 | no command starts a war, so a peaceful game stays peaceful and the panel always offers "declare war" |
| Types.EveryUnitListed | types.ts:38 | the unit list names all eleven unit types |
| Types.EveryBuildingListed | types.ts:24 | the building list names all seven building types |
| Types.Without | gameEngine.ts:276-284 | removing an army id from a list leaves exactly the other entries, each as often as before, and never the removed id |
| Types.WithoutKeepsOrder | gameEngine.ts:276-284 | the removal keeps the surviving entries in their order: removing from a concatenation removes from each part |

## Left out

- Randomness and the clock are parameters rather than drawn.
  - The biome noise (`Math.sin`, `Math.cos`, `Math.random`) is a function of the coordinates.
  - `Math.random` in battle is per-unit-type loss rolls in [0, 1).
  - A recruited general's stats range over 1..5, and the nation's AI personality is dropped.
  - `Date.now()` ids are a `freshId` draw. Freshness is assumed, as a premise, only where the bookkeeping invariant needs it.
- IEEE floating point is modelled as exact real arithmetic. Rounding of products, of `Math.floor`/`Math.ceil` on inexact values, and of the 0.001 population tax is not modelled. `Combat.Loss` groups count × ratio × roll as count × (ratio × roll), which is the same over exact reals.
- Display-only data is not modelled: names, flags, colours, emoji, descriptions, node positions, tile names, general names, portraits, traits, message titles and bodies, and battle-log text. The log is modelled only by its number of lines.
- The `loot` field of a battle result is always empty in the program, and is left out.
- Object iteration order (`Object.values` on the map and the armies) is modelled as sequence order for tiles. For the defender it is modelled as an oracle pick, constrained to a hostile army on the target tile.
- A division by zero in a loss ratio is modelled as the fault `UndefinedArithmetic`. The program would instead compute with `Infinity`/`NaN`. Such a division needs a defence or attack power of exactly -1, which desert terrain makes reachable (`Combat.DesertDefenceCanReachMinusOne`).
- `income.x || 0` is modelled as the income itself. The `NaN` case it guards against does not arise over exact reals.
- The biome array declared in generateHexMap is never used. The tile-money branch for cities is dead at generation time, because no generated tile is a city (`WorldGen.GeneratedMapIsFresh`). Both are modelled as they behave.
- A capital keeps its generated resource bonus and movement cost, exactly as the program leaves them.
- The research tree's connector drawing, the node icons and the cost caption are presentation only and are not modelled.
- The diplomacy panel's other parts are not modelled:
  - the accuracy colour;
  - the money guards that disable its buttons;
  - the action callbacks. The commands those callbacks dispatch are pass-through in the reducer.
- App.tsx, HexMap.tsx and UI.tsx (wiring, rendering and the AI turn loop) are not part of this model.
- Combat.Resolve: its contract bounds each loss to the unit count and fixes the verdict, but does not restate the exact ceiling formula. `Combat.Loss` defines that formula and carries its own contract.
- Combat.DefensePower: its contract pins down only the garrison case. The case with a defending army is stated through `Combat.UnitPowerNonNegative`, `Combat.PowerSplits`, `Combat.PowerOfOneKind` and the definition.
- Economy.Income: its contract states only that population is never credited. The components are stated by the Economy lemmas and by `EngineProps.IdleNationEarnsPopulationTax`.
- Intel.SpreadBounds: between -5 and 0 whether the range covers the value depends on the rounding, so no all-values clause is stated there; `Intel.SpreadNearZero` shows one value of each kind (-1 is covered, -2.5 is not).
