/** Battle resolution (clamp and calculateBattle in gameEngine.ts), in exact real arithmetic.
    The per-unit-type random draws are parameters with values in [0, 1). */
module Combat {
  import opened Types
  import opened Catalogue

  function Clamp(x: real, lo: real, hi: real): (r: real)
    requires lo <= hi
    ensures lo <= r <= hi
    ensures lo <= x <= hi ==> r == x
    ensures x < lo ==> r == lo
    ensures x > hi ==> r == hi
  {
    var atLeast := if x > lo then x else lo;
    if atLeast < hi then atLeast else hi
  }

  /** Math.ceil on exact reals. */
  function Ceil(x: real): (c: int)
    ensures x <= c as real < x + 1.0
  {
    -((-x).Floor)
  }

  // --- Power ----------------------------------------------------------------------

  /** Bravery (attack) or strategy (defence) bonus: 5% per point, only when the general exists. */
  function GeneralFactor(stat: Option<int>): real {
    match stat
    case Some(v) => 1.0 + v as real * 0.05
    case None => 1.0
  }

  /** Σ over the unit types present of stat × count × terrain multiplier × general factor. */
  function UnitPower(us: seq<UnitId>, units: map<UnitId, int>, biome: Biome, attacking: bool, factor: real): real {
    if |us| == 0 then 0.0
    else Contribution(us[0], units, biome, attacking, factor) + UnitPower(us[1..], units, biome, attacking, factor)
  }

  /** One unit type's share: stat × count × terrain multiplier × general factor, 0 when absent. */
  function Contribution(u: UnitId, units: map<UnitId, int>, biome: Biome, attacking: bool, factor: real): real {
    var base := if attacking then UnitOf(u).attack else UnitOf(u).defense;
    if u in units then base as real * units[u] as real * TerrainMultiplier(u, biome) * factor else 0.0
  }

  lemma ProductNonNegative(x: real, y: real)
    requires x >= 0.0 && y >= 0.0
    ensures x * y >= 0.0
  {
  }

  lemma ContributionNonNegative(u: UnitId, units: map<UnitId, int>, biome: Biome, attacking: bool, factor: real)
    requires factor >= 0.0
    requires u in units ==> units[u] >= 0
    ensures Contribution(u, units, biome, attacking, factor) >= 0.0
  {
    if u in units {
      var base := if attacking then UnitOf(u).attack else UnitOf(u).defense;
      var p1 := base as real * units[u] as real;
      ProductNonNegative(base as real, units[u] as real);
      ProductNonNegative(p1, TerrainMultiplier(u, biome));
      ProductNonNegative(p1 * TerrainMultiplier(u, biome), factor);
    }
  }

  lemma {:induction false} UnitPowerNonNegative(us: seq<UnitId>, units: map<UnitId, int>, biome: Biome, attacking: bool, factor: real)
    requires factor >= 0.0
    requires forall u :: u in units ==> units[u] >= 0
    ensures UnitPower(us, units, biome, attacking, factor) >= 0.0
  {
    if |us| > 0 {
      UnitPowerNonNegative(us[1..], units, biome, attacking, factor);
      ContributionNonNegative(us[0], units, biome, attacking, factor);
    }
  }

  function AttackPower(units: map<UnitId, int>, biome: Biome, bravery: Option<int>): real {
    UnitPower(AllUnits, units, biome, true, GeneralFactor(bravery))
  }

  /** A defending army, with its general's strategy when that general exists. */
  datatype Defender = Defender(armyId: string, units: map<UnitId, int>, strategy: Option<int>)

  /** Ten times the tile's defence bonus, plus the defending army or, with none, a militia of 50. */
  function DefensePower(tile: MapTile, defender: Option<Defender>): (p: real)
    ensures defender.None? ==> p == tile.defenseBonus as real * 10.0 + 50.0
  {
    tile.defenseBonus as real * 10.0 +
      match defender
      case Some(d) => UnitPower(AllUnits, d.units, tile.biome, false, GeneralFactor(d.strategy))
      case None => 50.0
  }

  // --- Outcome and losses ---------------------------------------------------------------

  /** The attacker needs strictly more than 110% of the defence. */
  predicate AttackerPrevails(attPower: real, defPower: real) {
    attPower > defPower * 1.1
  }

  /** A 10% margin favours the defender: 110 against 100 is repelled, 111 against 100 wins. */
  lemma MarginFavoursDefender()
    ensures !AttackerPrevails(110.0, 100.0)
    ensures AttackerPrevails(111.0, 100.0)
  {
  }

  /** Against a non-negative defence, winning requires more power than the defender has,
      and exactly 110% of the defence is never enough. */
  lemma PrevailingNeedsSurplus(attPower: real, defPower: real)
    requires defPower >= 0.0
    ensures AttackerPrevails(attPower, defPower) ==> attPower >= defPower
    ensures !AttackerPrevails(defPower * 1.1, defPower)
  {
  }

  function AttackerLossRatio(attPower: real, defPower: real): (r: real)
    requires attPower + 1.0 != 0.0
    ensures 0.05 <= r <= 0.5
  {
    Clamp(defPower / (attPower + 1.0) * 0.3, 0.05, 0.5)
  }

  function DefenderLossRatio(attPower: real, defPower: real): (r: real)
    requires defPower + 1.0 != 0.0
    ensures 0.05 <= r <= 1.0
  {
    Clamp(attPower / (defPower + 1.0) * 0.3, 0.05, 1.0)
  }

  predicate ValidRoll(roll: UnitId -> real) {
    forall u :: 0.0 <= roll(u) < 1.0
  }

  /** ceil(count × ratio × roll): never more than the count, never negative for a non-negative count. */
  function Loss(count: int, ratio: real, roll: real): (loss: int)
    requires 0.0 <= ratio <= 1.0 && 0.0 <= roll < 1.0
    ensures count >= 0 ==> 0 <= loss <= count
    ensures count > 0 && ratio > 0.0 && roll > 0.0 ==> loss >= 1
  {
    // count × ratio × roll; grouped as count × (ratio × roll), the same value over exact reals
    var f := ratio * roll;
    FractionOfFraction(ratio, roll);
    var x := count as real * f;
    ScaledCount(count, f);
    Ceil(x)
  }

  lemma FractionOfFraction(ratio: real, roll: real)
    requires 0.0 <= ratio <= 1.0 && 0.0 <= roll < 1.0
    ensures 0.0 <= ratio * roll <= 1.0
    ensures ratio > 0.0 && roll > 0.0 ==> ratio * roll > 0.0
  {
  }

  lemma ScaledCount(count: int, f: real)
    requires 0.0 <= f <= 1.0
    ensures count >= 0 ==> 0.0 <= count as real * f <= count as real
    ensures count > 0 && f > 0.0 ==> count as real * f > 0.0
  {
  }

  /** The loss of every unit type present in the army. */
  function Losses(units: map<UnitId, int>, ratio: real, roll: UnitId -> real): (losses: map<UnitId, int>)
    requires 0.0 <= ratio <= 1.0 && ValidRoll(roll)
    ensures losses.Keys == units.Keys
    ensures forall u :: u in units && units[u] >= 0 ==> 0 <= losses[u] <= units[u]
  {
    map u | u in units :: Loss(units[u], ratio, roll(u))
  }

  function Subtract(units: map<UnitId, int>, losses: map<UnitId, int>): (left: map<UnitId, int>)
    requires losses.Keys == units.Keys
    ensures left.Keys == units.Keys
    ensures forall u :: u in units ==> left[u] + losses[u] == units[u]
  {
    map u | u in units :: units[u] - losses[u]
  }

  // --- The battle ---------------------------------------------------------------------

  datatype Battle = Battle(
    result: BattleResult,
    attackerUnits: map<UnitId, int>,      // the attacking army's units after its losses
    defenderUnits: Option<map<UnitId, int>>,
    attackerWins: bool)

  /** Both loss ratios are defined: neither power is exactly -1. */
  predicate RatiosDefined(attPower: real, defPower: real) {
    attPower + 1.0 != 0.0 && defPower + 1.0 != 0.0
  }

  /** calculateBattle. `attackerCountryId` is the attacking country's id; `defenderCountryId` the
      defending country's id, None when the source falls back to its 'Rebels' placeholder. */
  function Resolve(attacker: Army, attackerCountryId: string, bravery: Option<int>,
                   defender: Option<Defender>, defenderCountryId: Option<string>,
                   tile: MapTile, attackRoll: UnitId -> real, defenceRoll: UnitId -> real): (b: Battle)
    requires RatiosDefined(AttackPower(attacker.units, tile.biome, bravery), DefensePower(tile, defender))
    requires ValidRoll(attackRoll) && ValidRoll(defenceRoll)
    ensures var att := AttackPower(attacker.units, tile.biome, bravery);
            var def := DefensePower(tile, defender);
            && (b.attackerWins <==> att > def * 1.1)
            && b.result.winnerId == (if b.attackerWins then Some(attackerCountryId) else defenderCountryId)
            && b.result.loserId == (if b.attackerWins then defenderCountryId else Some(attackerCountryId))
    ensures |b.result.details| == 5 && b.result.location == tile.id
    ensures b.result.attackerLosses.Keys == b.attackerUnits.Keys == attacker.units.Keys
    ensures forall u :: u in attacker.units ==>
              b.attackerUnits[u] == attacker.units[u] - b.result.attackerLosses[u]
              && (attacker.units[u] >= 0 ==>
                    0 <= b.result.attackerLosses[u] <= attacker.units[u] && b.attackerUnits[u] >= 0)
    ensures defender.None? <==> b.defenderUnits.None?
    ensures defender.None? ==> b.result.defenderLosses == map[]
    ensures defender.Some? ==>
              var d := defender.value.units;
              && b.result.defenderLosses.Keys == b.defenderUnits.value.Keys == d.Keys
              && forall u :: u in d ==>
                   b.defenderUnits.value[u] == d[u] - b.result.defenderLosses[u]
                   && (d[u] >= 0 ==>
                         0 <= b.result.defenderLosses[u] <= d[u] && b.defenderUnits.value[u] >= 0)
  {
    var att := AttackPower(attacker.units, tile.biome, bravery);
    var def := DefensePower(tile, defender);
    var attLosses := Losses(attacker.units, AttackerLossRatio(att, def), attackRoll);
    var defLosses := if defender.Some? then Losses(defender.value.units, DefenderLossRatio(att, def), defenceRoll) else map[];
    var wins := AttackerPrevails(att, def);
    var log := [BattleAt(tile.id, tile.biome),
                AttackerIs(attacker.id, attackerCountryId),
                DefenderIs(if defender.Some? then Some(defender.value.armyId) else None),
                Powers(att.Floor, def.Floor),
                Verdict(wins)];
    Battle(
      BattleResult(
        if wins then Some(attackerCountryId) else defenderCountryId,
        if wins then defenderCountryId else Some(attackerCountryId),
        attLosses, defLosses, tile.id, log),
      Subtract(attacker.units, attLosses),
      if defender.Some? then Some(Subtract(defender.value.units, defLosses)) else None,
      wins)
  }

  /** A lone unit is always lost once its roll is positive: the attacker's loss ratio is at least 5%. */
  lemma LoneUnitFalls(ratio: real, roll: real)
    requires 0.05 <= ratio <= 1.0 && 0.0 < roll < 1.0
    ensures Loss(1, ratio, roll) == 1
  {
  }

  /** The desert's -10 defence makes a defence of exactly -1 reachable: three soldiers and two
      helicopters under a general of strategy 2 hold (30 × 1.1 + 60 × 1.1 =) 33 + 66 = 99 against
      -100, both products exact in binary floating point too, so the defender's loss ratio divides by zero. */
  lemma DesertDefenceCanReachMinusOne(tile: MapTile)
    requires tile.biome == Desert && tile.defenseBonus == BiomeOf(Desert).defense
    ensures DefensePower(tile, Some(Defender("d", map[Soldier := 3, Helicopter := 2], Some(2)))) + 1.0 == 0.0
  {
    var d := Defender("d", map[Soldier := 3, Helicopter := 2], Some(2));
    assert GeneralFactor(d.strategy) == 1.1;
    SoldiersAndHelicoptersInDesert();
    assert DefensePower(tile, Some(d)) == -100.0 + 99.0;
  }

  lemma SoldiersAndHelicoptersInDesert()
    ensures UnitPower(AllUnits, map[Soldier := 3, Helicopter := 2], Desert, false, 1.1) == 99.0
  {
    DesertPieces();
    PowerSplits(AllUnits, map[Soldier := 3], map[Helicopter := 2], Desert, false, 1.1);
    PowerOfOneKind(AllUnits, 0, Soldier, 3, Desert, false, 1.1);
    PowerOfOneKind(AllUnits, 5, Helicopter, 2, Desert, false, 1.1);
  }

  /** Where soldiers and helicopters sit in the unit list, and what each group brings in the desert. */
  lemma DesertPieces()
    ensures forall k :: 0 <= k < |AllUnits| && k != 0 ==> AllUnits[k] != Soldier
    ensures forall k :: 0 <= k < |AllUnits| && k != 5 ==> AllUnits[k] != Helicopter
    ensures map[Soldier := 3, Helicopter := 2] == map[Soldier := 3] + map[Helicopter := 2]
    ensures Contribution(Soldier, map[Soldier := 3], Desert, false, 1.1) == 33.0
    ensures Contribution(Helicopter, map[Helicopter := 2], Desert, false, 1.1) == 66.0
  {
  }

  /** One unit type's share is additive over two armies that share no unit type. */
  lemma ContributionSplits(u: UnitId, m1: map<UnitId, int>, m2: map<UnitId, int>, biome: Biome, attacking: bool, factor: real)
    requires m1.Keys !! m2.Keys
    ensures Contribution(u, m1 + m2, biome, attacking, factor)
            == Contribution(u, m1, biome, attacking, factor) + Contribution(u, m2, biome, attacking, factor)
  {
    if u in m1 {
      assert (m1 + m2)[u] == m1[u];
    } else if u in m2 {
      assert (m1 + m2)[u] == m2[u];
    }
  }

  /** Power is additive: merging two armies with no unit type in common adds their powers. */
  lemma {:induction false} PowerSplits(us: seq<UnitId>, m1: map<UnitId, int>, m2: map<UnitId, int>, biome: Biome, attacking: bool, factor: real)
    requires m1.Keys !! m2.Keys
    ensures UnitPower(us, m1 + m2, biome, attacking, factor)
            == UnitPower(us, m1, biome, attacking, factor) + UnitPower(us, m2, biome, attacking, factor)
  {
    if |us| > 0 {
      ContributionSplits(us[0], m1, m2, biome, attacking, factor);
      PowerSplits(us[1..], m1, m2, biome, attacking, factor);
    }
  }

  /** An army of a single unit type, listed once, has exactly that type's share as its power. */
  lemma {:induction false} PowerOfOneKind(us: seq<UnitId>, i: int, u: UnitId, n: int, biome: Biome, attacking: bool, factor: real)
    requires 0 <= i < |us| && us[i] == u
    requires forall k :: 0 <= k < |us| && k != i ==> us[k] != u
    ensures UnitPower(us, map[u := n], biome, attacking, factor) == Contribution(u, map[u := n], biome, attacking, factor)
  {
    if i == 0 {
      assert forall v :: v in us[1..] ==> v != u;
      NoUnitsOutside(us[1..], map[u := n], biome, attacking, factor);
    } else {
      assert us[1..][i - 1] == u;
      PowerOfOneKind(us[1..], i - 1, u, n, biome, attacking, factor);
    }
  }

  lemma {:induction false} NoUnitsOutside(us: seq<UnitId>, units: map<UnitId, int>, biome: Biome, attacking: bool, factor: real)
    requires forall u :: u in us ==> u !in units
    ensures UnitPower(us, units, biome, attacking, factor) == 0.0
  {
    if |us| > 0 {
      NoUnitsOutside(us[1..], units, biome, attacking, factor);
    }
  }
}
